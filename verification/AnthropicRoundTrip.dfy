/**
 Writing an event list with the Anthropic writer and reading it back with the Anthropic parser:
 the exact result for every event list, and what a client makes of it.
 */
module AnthropicRoundTrip {
  import opened Wrappers
  import opened Ir
  import W = AnthropicWriter
  import P = AnthropicParser

  // ---------- Reading a list of frames ----------

  datatype Reading = Reading(parser: P.Parser, events: seq<StreamEvent>, failed: bool)

  /** The reader's loop over `data:` payloads; it gives up at the first error. */
  function ReadFrames(fs: seq<W.Frame>): Reading {
    if |fs| == 0 then Reading(P.INIT, [], false) else
    var r := ReadFrames(fs[..|fs| - 1]);
    if r.failed then r else
    match P.FeedDoc(r.parser, P.Payload(fs[|fs| - 1]))
    case (_, Err(_)) => r.(failed := true)
    case (p, Ok(evs)) => Reading(p, r.events + evs, false)
  }

  lemma ReadSnoc(fs: seq<W.Frame>, f: W.Frame)
    requires !ReadFrames(fs).failed
    ensures ReadFrames(fs + [f]) ==
      match P.FeedFrame(ReadFrames(fs).parser, f)
      case (_, Err(_)) => ReadFrames(fs).(failed := true)
      case (p, Ok(evs)) => Reading(p, ReadFrames(fs).events + evs, false)
  {
    assert (fs + [f])[..|fs|] == fs;
    P.FeedPayload(ReadFrames(fs).parser, f);
  }

  // ---------- The expected result, without frames ----------

  function CanonicalReason(reason: string): string {
    if reason == "tool_calls" || reason == "length" then reason else "stop"
  }

  function CanonicalUsage(u: Option<Usage>): Option<Usage> {
    if u.Some? && (u.value.prompt > 0 || u.value.completion > 0) then Some(Usage(u.value.prompt, u.value.completion, 0))
    else None
  }

  /** Blocks are numbered in order of appearance; a run of text is one block, and a tool start ends the run. */
  datatype Renaming = Renaming(next: nat, textOpen: bool, block: map<int, nat>, open: seq<nat>)

  function Stops(blocks: seq<nat>): (r: seq<StreamEvent>)
    ensures |r| == |blocks|
  {
    seq(|blocks|, i requires 0 <= i < |blocks| => ToolCallStop(blocks[i]))
  }

  function Rename(n: Renaming, ev: StreamEvent): (Renaming, seq<StreamEvent>) {
    match ev
    case TextDelta(_) => (if n.textOpen then n else n.(next := n.next + 1, textOpen := true), [ev])
    case ToolCallStart(i, id, name) =>
      (n.(next := n.next + 1, textOpen := false, block := n.block[i := n.next], open := n.open + [n.next]),
       [ToolCallStart(n.next, W.ToolId(id, n.next), name)])
    case ToolCallDelta(i, args) => (n, if i in n.block then [ToolCallDelta(n.block[i], args)] else [])
    case ToolCallStop(i) =>
      if i in n.block && n.block[i] in n.open
      then (n.(open := W.Without(n.open, n.block[i])), [ToolCallStop(n.block[i])])
      else (n, [])
    case Done(reason, usage) =>
      (n.(open := [], textOpen := false), Stops(n.open) + [Done(CanonicalReason(reason), CanonicalUsage(usage))])
  }

  /** The events a reader gets for an event list: renamed one by one up to the first done. */
  function Translate(evs: seq<StreamEvent>): (Renaming, seq<StreamEvent>) {
    if |evs| == 0 then (Renaming(0, false, map[], []), []) else
    var init := evs[..|evs| - 1];
    var (n, out) := Translate(init);
    if HasDone(init) then (n, out) else
    var (m, more) := Rename(n, evs[|evs| - 1]);
    (m, out + more)
  }

  // ---------- The writer and the reader in step ----------

  /** The reader has failed nowhere, knows the tool blocks, and has seen no end. */
  ghost predicate Sync(w: W.Writer) {
    var r := ReadFrames(w.out);
    W.Inv(w) && !w.done && !r.failed && r.parser == P.Parser(W.Summarise(w.out).tools, false, "", None)
  }

  function Events(w: W.Writer): seq<StreamEvent> {
    ReadFrames(w.out).events
  }

  /** The writer's state as a renaming; the open text block, if any, is the last in its list. */
  ghost predicate Views(w: W.Writer, n: Renaming) {
    && n.next == w.blockSeq && n.textOpen == (w.textBlock >= 0) && n.block == w.toolBlocks
    && w.openBlocks == n.open + (if w.textBlock >= 0 then [w.textBlock as nat] else [])
  }

  predicate BodyFrame(f: W.Frame) {
    !f.MessageDelta? && !f.MessageStop? && !f.ErrorFrame?
  }

  lemma EmitSync(w: W.Writer, v: W.Writer, f: W.Frame)
    requires Sync(w) && BodyFrame(f) && v.out == w.out + [f] && W.Inv(v) && !v.done
    ensures Sync(v) && Events(v) == Events(w) + P.FeedFrame(ReadFrames(w.out).parser, f).1.value
  {
    W.Snoc(w.out, f);
    ReadSnoc(w.out, f);
  }

  lemma StartMessageStep(w: W.Writer, n: Renaming)
    requires Sync(w) && Views(w, n)
    ensures var s := W.StartMessage(w);
      Sync(s) && Views(s, n) && s.started && Events(s) == Events(w)
  {
    W.StartMessageInv(w);
    if !w.started {
      EmitSync(w, W.StartMessage(w), W.MessageStart(w.id, w.model));
    }
  }

  lemma TextStep(w: W.Writer, n: Renaming, d: string)
    requires Sync(w) && Views(w, n) && w.started
    ensures var t := W.WriteText(w, d);
      var (m, more) := Rename(n, TextDelta(d));
      Sync(t) && Views(t, m) && Events(t) == Events(w) + more
  {
    W.OpenTextInv(w);
    W.WriteTextInv(w, d);
    var o := W.OpenText(w);
    if w.textBlock < 0 {
      EmitSync(w, o, W.BlockStart(w.blockSeq, W.TextBlock));
    }
    EmitSync(o, W.WriteText(w, d), W.TextPiece(o.textBlock, d));
  }

  lemma ArgumentsStep(w: W.Writer, n: Renaming, i: int, args: string)
    requires Sync(w) && Views(w, n) && w.started
    ensures var t := W.WriteArguments(w, i, args);
      Sync(t) && Views(t, n) && Events(t) == Events(w) + Rename(n, ToolCallDelta(i, args)).1
  {
    W.WriteArgumentsInv(w, i, args);
    if i in w.toolBlocks {
      EmitSync(w, W.WriteArguments(w, i, args), W.JsonPiece(w.toolBlocks[i], args));
    } else {
      assert Events(w) + [] == Events(w);
    }
  }

  lemma CloseTextEffect(w: W.Writer, n: Renaming)
    requires W.Inv(w) && Views(w, n) && w.textBlock >= 0
    ensures W.CloseBlock(w, w.textBlock) ==
      w.(openBlocks := n.open, textBlock := -1, out := w.out + [W.BlockStop(w.textBlock)])
  {
    var t := w.textBlock;
    assert w.openBlocks[|n.open|] == t;
    assert forall j :: 0 <= j < |n.open| ==> n.open[j] == w.openBlocks[j] && w.openBlocks[j] != t;
    WithoutLast(n.open, t);
  }

  lemma CloseTextStep(w: W.Writer, n: Renaming)
    requires Sync(w) && Views(w, n) && w.started && w.textBlock >= 0
    ensures var c := W.CloseBlock(w, w.textBlock);
      Sync(c) && Views(c, n.(textOpen := false)) && Events(c) == Events(w) && c.started && c.textBlock < 0
  {
    var t := w.textBlock;
    CloseTextEffect(w, n);
    W.CloseBlockInv(w, t);
    EmitSync(w, W.CloseBlock(w, t), W.BlockStop(t));
    assert Events(w) + [] == Events(w);
    assert n.open + [] == n.open;
  }

  lemma {:induction false} WithoutLast(s: seq<nat>, x: nat)
    requires x !in s
    ensures W.Without(s + [x], x) == s
  {
    if |s| == 0 {
    } else {
      WithoutLast(s[1..], x);
      assert (s + [x])[1..] == s[1..] + [x];
    }
  }

  lemma PushToolStep(w: W.Writer, n: Renaming, i: int, id: string, name: string)
    requires Sync(w) && Views(w, n) && w.started && w.textBlock < 0
    ensures var t := W.PushTool(w, i, id, name);
      var (m, more) := Rename(n, ToolCallStart(i, id, name));
      Sync(t) && Views(t, m) && Events(t) == Events(w) + more
  {
    W.PushToolInv(w, i, id, name);
    var b := w.blockSeq;
    EmitSync(w, W.PushTool(w, i, id, name), W.BlockStart(b, W.ToolBlock(W.ToolId(id, b), name)));
  }

  lemma ToolStartStep(w: W.Writer, n: Renaming, i: int, id: string, name: string)
    requires Sync(w) && Views(w, n) && w.started
    ensures var t := W.OpenTool(w, i, id, name);
      var (m, more) := Rename(n, ToolCallStart(i, id, name));
      Sync(t) && Views(t, m) && Events(t) == Events(w) + more
  {
    if w.textBlock >= 0 {
      CloseTextStep(w, n);
      PushToolStep(W.CloseBlock(w, w.textBlock), n.(textOpen := false), i, id, name);
    } else {
      PushToolStep(w, n, i, id, name);
    }
  }

  lemma CloseToolStep(w: W.Writer, n: Renaming, b: nat)
    requires Sync(w) && Views(w, n) && w.started && b in W.Summarise(w.out).tools
    ensures var c := W.CloseBlock(w, b);
      Sync(c) && c.started && Views(c, n.(open := W.Without(n.open, b)))
      && Events(c) == Events(w) + (if b in n.open then [ToolCallStop(b)] else [])
  {
    var c := W.CloseBlock(w, b);
    W.CloseBlockInv(w, b);
    assert w.textBlock != b;
    assert b in w.openBlocks <==> b in n.open;
    if b in n.open {
      EmitSync(w, c, W.BlockStop(b));
      if w.textBlock >= 0 {
        WithoutAppend(n.open, b, w.textBlock);
      }
      assert W.Without(n.open, b) + [] == W.Without(n.open, b);
      assert n.open + [] == n.open;
    } else {
      WithoutAbsent(n.open, b);
      assert Events(w) + [] == Events(w);
    }
  }

  lemma {:induction false} WithoutAppend(s: seq<nat>, x: nat, y: nat)
    requires x in s
    ensures W.Without(s + [y], x) == W.Without(s, x) + [y]
  {
    if s[0] != x {
      WithoutAppend(s[1..], x, y);
    }
    assert (s + [y])[1..] == s[1..] + [y];
  }

  lemma {:induction false} WithoutAbsent<T>(s: seq<T>, x: T)
    requires x !in s
    ensures W.Without(s, x) == s
  {
    if |s| == 0 {
    } else {
      WithoutAbsent(s[1..], x);
    }
  }

  lemma ToolStopStep(w: W.Writer, n: Renaming, i: int)
    requires Sync(w) && Views(w, n) && w.started
    ensures var t := if i in w.toolBlocks then W.CloseBlock(w, w.toolBlocks[i]) else w;
      var (m, more) := Rename(n, ToolCallStop(i));
      Sync(t) && Views(t, m) && Events(t) == Events(w) + more
  {
    if i in w.toolBlocks {
      CloseToolStep(w, n, w.toolBlocks[i]);
      WithoutAbsentIf(n.open, w.toolBlocks[i]);
    } else {
      assert Events(w) + [] == Events(w);
    }
  }

  lemma WithoutAbsentIf(s: seq<nat>, x: nat)
    ensures x !in s ==> W.Without(s, x) == s
  {
    if x !in s {
      WithoutAbsent(s, x);
    }
  }

  // ---------- The end of a message ----------

  lemma CloseHeadStep(w: W.Writer, n: Renaming)
    requires Sync(w) && Views(w, n) && w.started && |n.open| > 0
    ensures var c := W.CloseBlock(w, n.open[0]);
      Sync(c) && c.started && Views(c, n.(open := n.open[1..])) && Events(c) == Events(w) + [ToolCallStop(n.open[0])]
  {
    OpenIsTool(w, n, n.open[0]);
    CloseToolStep(w, n, n.open[0]);
  }

  lemma StopsSnoc(blocks: seq<nat>, b: nat, before: seq<StreamEvent>)
    ensures before + Stops(blocks + [b]) == (before + Stops(blocks)) + [ToolCallStop(b)]
  {
  }

  /** Closing the open tools in their order. */
  lemma {:induction false} CloseToolsStep(w: W.Writer, n: Renaming, k: nat)
    requires Sync(w) && Views(w, n) && w.started && k <= |n.open|
    ensures var c := W.CloseBlocks(w, n.open[..k]);
      Sync(c) && c.started && Views(c, n.(open := n.open[k..])) && Events(c) == Events(w) + Stops(n.open[..k])
  {
    hide Sync, Views, W.CloseBlock;
    if k == 0 {
      assert n.open[..0] == [] && n.open[0..] == n.open;
      assert Events(w) + [] == Events(w);
    } else {
      var init, b := n.open[..k - 1], n.open[k - 1];
      CloseToolsStep(w, n, k - 1);
      assert n.open[..k] == init + [b] && n.open[..k][..k - 1] == init;
      var m := n.(open := n.open[k - 1..]);
      assert m.open[0] == b && m.open[1..] == n.open[k..];
      CloseHeadStep(W.CloseBlocks(w, init), m);
      StopsSnoc(init, b, Events(w));
    }
  }

  lemma OpenIsTool(w: W.Writer, n: Renaming, b: nat)
    requires Sync(w) && Views(w, n) && b in n.open
    ensures b in W.Summarise(w.out).tools
  {
    assert b in w.openBlocks;
    assert b in W.Elements(w.openBlocks);
    if w.textBlock >= 0 {
      var j :| 0 <= j < |n.open| && n.open[j] == b;
      assert w.openBlocks[j] == b && w.openBlocks[|n.open|] == w.textBlock;
    }
  }

  lemma CloseAllStep(w: W.Writer, n: Renaming)
    requires Sync(w) && Views(w, n) && w.started
    ensures var c := W.CloseBlocks(w, w.openBlocks);
      Sync(c) && c.openBlocks == [] && c.started && Events(c) == Events(w) + Stops(n.open)
  {
    CloseToolsStep(w, n, |n.open|);
    assert n.open[..|n.open|] == n.open && n.open[|n.open|..] == [];
    if w.textBlock >= 0 {
      var c := W.CloseBlocks(w, n.open);
      CloseTextStep(c, n.(open := []));
      var all := w.openBlocks;
      assert all[..|all| - 1] == n.open && all[|all| - 1] == w.textBlock;
      CloseBlocksKeepsText(w, n.open);
    } else {
      assert w.openBlocks == n.open;
    }
  }

  lemma {:induction false} CloseBlocksKeepsText(w: W.Writer, ids: seq<nat>)
    requires w.textBlock !in ids
    ensures W.CloseBlocks(w, ids).textBlock == w.textBlock
  {
    if |ids| == 0 {
    } else {
      CloseBlocksKeepsText(w, ids[..|ids| - 1]);
    }
  }

  /** The two closing frames: the reader's finish reason and usage, then the end. */
  lemma ReadEnd(fs: seq<W.Frame>, reason: string, u: Usage)
    requires reason != ""
    requires var r := ReadFrames(fs); !r.failed && !r.parser.stopped && r.parser.usage == None
    ensures var e := ReadFrames(fs + [W.MessageDelta(reason, u.prompt, u.completion)] + [W.MessageStop]);
      && !e.failed && e.parser.stopped
      && e.events == ReadFrames(fs).events + [Done(P.FinishReason(reason), CanonicalUsage(Some(u)))]
  {
    var f := W.MessageDelta(reason, u.prompt, u.completion);
    ReadSnoc(fs, f);
    assert ReadFrames(fs).events + [] == ReadFrames(fs).events;
    ReadSnoc(fs + [f], W.MessageStop);
  }

  lemma EndMessageStep(w: W.Writer, reason: string, usage: Option<Usage>)
    requires Sync(w)
    ensures var e := W.EndMessage(w, reason, usage);
      var r := ReadFrames(e.out);
      && e.done && !r.failed && r.parser.stopped
      && r.events == Events(w) + [Done(CanonicalReason(reason), CanonicalUsage(usage))]
  {
    ReadEnd(w.out, W.StopReason(reason), if usage.Some? then usage.value else Usage(0, 0, 0));
    assert P.FinishReason(W.StopReason(reason)) == CanonicalReason(reason);
  }

  lemma RenamedDone(n: Renaming, before: seq<StreamEvent>, reason: string, usage: Option<Usage>)
    ensures before + Rename(n, Done(reason, usage)).1
         == (before + Stops(n.open)) + [Done(CanonicalReason(reason), CanonicalUsage(usage))]
  {
  }

  lemma FinishStep(w: W.Writer, n: Renaming, reason: string, usage: Option<Usage>)
    requires Sync(w) && Views(w, n)
    ensures var e := W.FinishMessage(w, reason, usage);
      var r := ReadFrames(e.out);
      && e.done && !r.failed && r.parser.stopped
      && r.events == Events(w) + Rename(n, Done(reason, usage)).1
  {
    StartMessageStep(w, n);
    var s := W.StartMessage(w);
    CloseAllStep(s, n);
    EndMessageStep(W.CloseBlocks(s, s.openBlocks), reason, usage);
    RenamedDone(n, Events(w), reason, usage);
  }

  // ---------- The round trip ----------

  lemma EventStep(w: W.Writer, n: Renaming, ev: StreamEvent)
    requires Sync(w) && Views(w, n) && !ev.Done?
    ensures var v := W.AfterEvent(w, ev);
      var (m, more) := Rename(n, ev);
      Sync(v) && Views(v, m) && Events(v) == Events(w) + more
  {
    StartMessageStep(w, n);
    var s := W.StartMessage(w);
    match ev
    case TextDelta(d) => TextStep(s, n, d);
    case ToolCallStart(i, id, name) => ToolStartStep(s, n, i, id, name);
    case ToolCallDelta(i, args) => ArgumentsStep(s, n, i, args);
    case ToolCallStop(i) => ToolStopStep(s, n, i);
  }

  /** What is known after writing any event list. */
  ghost predicate Reads(w: W.Writer, evs: seq<StreamEvent>) {
    var (n, out) := Translate(evs);
    if HasDone(evs) then w.done && !ReadFrames(w.out).failed && ReadFrames(w.out).parser.stopped && Events(w) == out
    else Sync(w) && Views(w, n) && Events(w) == out
  }

  lemma TranslateSnoc(evs: seq<StreamEvent>, ev: StreamEvent)
    ensures HasDone(evs + [ev]) == (HasDone(evs) || ev.Done?)
    ensures HasDone(evs) ==> Translate(evs + [ev]) == Translate(evs)
    ensures !HasDone(evs) ==>
      Translate(evs + [ev]) == (var (n, out) := Translate(evs); var (m, more) := Rename(n, ev); (m, out + more))
  {
    assert (evs + [ev])[..|evs|] == evs && (evs + [ev])[|evs|] == ev;
    if HasDone(evs) {
      var i :| 0 <= i < |evs| && evs[i].Done?;
      assert (evs + [ev])[i].Done?;
    }
  }

  lemma {:induction false} WrittenReads(id: string, model: string, evs: seq<StreamEvent>)
    ensures Reads(W.AfterAll(W.Start(id, model), evs), evs)
  {
    var start := W.Start(id, model);
    if |evs| == 0 {
      W.StartInv(id, model);
    } else {
      var init, ev := evs[..|evs| - 1], evs[|evs| - 1];
      assert evs == init + [ev];
      WrittenReads(id, model, init);
      TranslateSnoc(init, ev);
      var w := W.AfterAll(start, init);
      if !HasDone(init) {
        var n := Translate(init).0;
        if ev.Done? {
          FinishDone(w, n, ev.finishReason, ev.usage);
        } else {
          EventStep(w, n, ev);
        }
      }
    }
  }

  lemma FinishDone(w: W.Writer, n: Renaming, reason: string, usage: Option<Usage>)
    requires Sync(w) && Views(w, n)
    ensures var e := W.AfterEvent(w, Done(reason, usage));
      var r := ReadFrames(e.out);
      e.done && !r.failed && r.parser.stopped && r.events == Events(w) + Rename(n, Done(reason, usage)).1
  {
    StartMessageStep(w, n);
    FinishStep(W.StartMessage(w), n, reason, usage);
  }

  /**
   Write, close and read back, for every event list: the reader gets exactly the translation of the
   completed list, and it fails only when the stream was closed by an error event.
   */
  lemma RoundTrip(id: string, model: string, evs: seq<StreamEvent>, msg: string)
    ensures var w := W.AfterAll(W.Start(id, model), evs);
      && ReadFrames(W.AfterFinish(w).out).events == Translate(Complete(evs)).1
      && !ReadFrames(W.AfterFinish(w).out).failed
      && ReadFrames(W.AfterError(w, msg).out).events == Translate(evs).1
      && (ReadFrames(W.AfterError(w, msg).out).failed <==> !HasDone(evs))
  {
    var w := W.AfterAll(W.Start(id, model), evs);
    WrittenReads(id, model, evs);
    if HasDone(evs) {
      TranslateCut(evs);
    } else {
      TranslateSnoc(evs, Done("", None));
      CloseUnfinished(w, Translate(evs).0, msg);
    }
  }

  lemma BrokenOff(w: W.Writer, msg: string)
    requires Sync(w)
    ensures !w.done
    ensures var broken := ReadFrames(W.AfterError(w, msg).out); broken.failed && broken.events == Events(w)
  {
    hide W.Inv, ReadFrames, W.Summarise;
    ReadSnoc(w.out, W.ErrorFrame(msg));
  }

  lemma CloseUnfinished(w: W.Writer, n: Renaming, msg: string)
    requires Sync(w) && Views(w, n)
    ensures var finished, broken := ReadFrames(W.AfterFinish(w).out), ReadFrames(W.AfterError(w, msg).out);
      && !finished.failed && finished.events == Events(w) + Rename(n, Done("", None)).1
      && broken.failed && broken.events == Events(w)
  {
    hide W.FinishMessage, Views;
    FinishStep(w, n, "", None);
    BrokenOff(w, msg);
  }

  lemma {:induction false} TranslateCut(evs: seq<StreamEvent>)
    requires HasDone(evs)
    ensures Translate(Cut(evs)) == Translate(evs)
  {
    var init := evs[..|evs| - 1];
    if HasDone(init) {
      TranslateCut(init);
    }
  }

  /** The writer returns an error exactly for arguments of a tool call that was not started, on a stream not done. */
  lemma NothingRejected(id: string, model: string, evs: seq<StreamEvent>, k: nat)
    requires k < |evs|
    ensures W.Rejects(W.AfterAll(W.Start(id, model), evs[..k]), evs[k]) <==>
      && evs[k].ToolCallDelta? && (forall j :: 0 <= j < k ==> !evs[j].Done?)
      && forall j :: 0 <= j < k ==> !(evs[j].ToolCallStart? && evs[j].index == evs[k].index)
  {
    hide W.AfterAll, Translate;
    WrittenReads(id, model, evs[..k]);
    var before := evs[..k];
    assert forall j :: 0 <= j < k ==> before[j] == evs[j];
    if evs[k].ToolCallDelta? && !HasDone(before) {
      BlockKeys(before, evs[k].index);
    }
  }

  lemma {:induction false} BlockKeys(evs: seq<StreamEvent>, i: int)
    requires !HasDone(evs)
    ensures i in Translate(evs).0.block <==> exists j :: 0 <= j < |evs| && evs[j].ToolCallStart? && evs[j].index == i
  {
    if |evs| == 0 {
    } else {
      var init, ev := evs[..|evs| - 1], evs[|evs| - 1];
      assert evs == init + [ev];
      TranslateSnoc(init, ev);
      BlockKeys(init, i);
      if ev.ToolCallStart? && ev.index == i {
        assert evs[|init|] == ev;
      }
      if exists j :: 0 <= j < |init| && init[j].ToolCallStart? && init[j].index == i {
        var j :| 0 <= j < |init| && init[j].ToolCallStart? && init[j].index == i;
        assert evs[j] == init[j];
      }
    }
  }

  // ---------- Well-formed lists: an injective renaming of the tool indices ----------

  ghost predicate Injective(r: map<int, nat>) {
    forall i, j :: i in r && j in r && i != j ==> r[i] != r[j]
  }

  /** The event with its tool index replaced by its block number. */
  function Renamed(r: map<int, nat>, ev: StreamEvent): StreamEvent
    requires Indexed(ev) ==> ev.index in r
  {
    match ev
    case ToolCallStart(i, id, name) => ToolCallStart(r[i], W.ToolId(id, r[i]), name)
    case ToolCallDelta(i, args) => ToolCallDelta(r[i], args)
    case ToolCallStop(i) => ToolCallStop(r[i])
    case TextDelta(_) => ev
    case Done(_, _) => ev
  }

  predicate Indexed(ev: StreamEvent) {
    ev.ToolCallStart? || ev.ToolCallDelta? || ev.ToolCallStop?
  }

  /** The tools started and not yet stopped, in the order of their starts. */
  function Unstopped(evs: seq<StreamEvent>): seq<int> {
    if |evs| == 0 then [] else
    var before := Unstopped(evs[..|evs| - 1]);
    match evs[|evs| - 1]
    case ToolCallStart(i, _, _) => before + [i]
    case ToolCallStop(i) => W.Without(before, i)
    case _ => before
  }

  function StartedIn(evs: seq<StreamEvent>): set<int> {
    set ev | ev in evs && ev.ToolCallStart? :: ev.index
  }

  /** Each tool is started once, before its arguments and its stop, and nothing of it comes after its stop. */
  predicate WellFormed(evs: seq<StreamEvent>) {
    |evs| == 0 ||
    var init, ev := evs[..|evs| - 1], evs[|evs| - 1];
    && WellFormed(init)
    && !ev.Done?
    && (ev.ToolCallStart? ==> ev.index !in StartedIn(init))
    && (ev.ToolCallDelta? || ev.ToolCallStop? ==> ev.index in StartedIn(init) && ev.index in Unstopped(init))
  }

  ghost predicate Covers(r: map<int, nat>, evs: seq<StreamEvent>) {
    forall ev :: ev in evs && Indexed(ev) ==> ev.index in r
  }

  ghost function RenameAll(r: map<int, nat>, evs: seq<StreamEvent>): seq<StreamEvent>
    requires Covers(r, evs)
  {
    if |evs| == 0 then [] else RenameAll(r, evs[..|evs| - 1]) + [Renamed(r, evs[|evs| - 1])]
  }

  ghost predicate Known(r: map<int, nat>, tools: seq<int>) {
    forall k :: 0 <= k < |tools| ==> tools[k] in r
  }

  ghost function Blocks(r: map<int, nat>, tools: seq<int>): (s: seq<nat>)
    requires Known(r, tools)
    ensures |s| == |tools|
    ensures forall k :: 0 <= k < |tools| ==> s[k] == r[tools[k]]
  {
    if |tools| == 0 then [] else [r[tools[0]]] + Blocks(r, tools[1..])
  }

  lemma {:induction false} RenameAgrees(r: map<int, nat>, q: map<int, nat>, evs: seq<StreamEvent>)
    requires Covers(r, evs) && Covers(q, evs)
    requires forall i :: i in r ==> i in q && q[i] == r[i]
    ensures RenameAll(r, evs) == RenameAll(q, evs)
  {
    if |evs| == 0 {
    } else {
      assert evs[|evs| - 1] in evs;
      RenameAgrees(r, q, evs[..|evs| - 1]);
    }
  }

  lemma {:induction false} BlocksWithout(r: map<int, nat>, tools: seq<int>, i: int)
    requires Injective(r) && i in r
    requires Known(r, tools)
    ensures Known(r, W.Without(tools, i))
    ensures Blocks(r, W.Without(tools, i)) == W.Without(Blocks(r, tools), r[i])
  {
    var bs := Blocks(r, tools);
    if |tools| == 0 {
    } else {
      assert tools[0] in tools && bs[0] == r[tools[0]];
      assert bs[1..] == Blocks(r, tools[1..]);
      if tools[0] != i {
        BlocksWithout(r, tools[1..], i);
        assert Blocks(r, W.Without(tools, i)) == [bs[0]] + Blocks(r, W.Without(tools[1..], i));
      }
    }
  }

  /** The renaming that the translation of a well-formed list has built, and what it did with it. */
  ghost predicate BuiltBy(n: Renaming, out: seq<StreamEvent>, evs: seq<StreamEvent>) {
    && n.block.Keys == StartedIn(evs) && Injective(n.block)
    && (forall i :: i in n.block ==> n.block[i] < n.next)
    && Covers(n.block, evs) && out == RenameAll(n.block, evs)
    && Known(n.block, Unstopped(evs))
    && n.open == Blocks(n.block, Unstopped(evs))
  }

  lemma StartedSnoc(evs: seq<StreamEvent>, ev: StreamEvent)
    ensures StartedIn(evs + [ev]) == StartedIn(evs) + (if ev.ToolCallStart? then {ev.index} else {})
  {
    assert forall e :: e in evs + [ev] <==> e in evs || e == ev;
  }

  lemma StartBuilds(n: Renaming, out: seq<StreamEvent>, evs: seq<StreamEvent>, ev: StreamEvent)
    requires BuiltBy(n, out, evs) && ev.ToolCallStart? && ev.index !in StartedIn(evs)
    ensures var (m, more) := Rename(n, ev); BuiltBy(m, out + more, evs + [ev])
  {
    var (m, more) := Rename(n, ev);
    assert (evs + [ev])[..|evs|] == evs;
    StartedSnoc(evs, ev);
    RenameAgrees(n.block, m.block, evs);
    assert Blocks(m.block, Unstopped(evs)) == n.open;
    assert Blocks(m.block, Unstopped(evs) + [ev.index]) == n.open + [n.next];
  }

  lemma OtherBuilds(n: Renaming, out: seq<StreamEvent>, evs: seq<StreamEvent>, ev: StreamEvent)
    requires BuiltBy(n, out, evs) && (ev.TextDelta? || ev.ToolCallDelta? || ev.ToolCallStop?)
    requires !ev.TextDelta? ==> ev.index in StartedIn(evs) && ev.index in Unstopped(evs)
    ensures var (m, more) := Rename(n, ev); BuiltBy(m, out + more, evs + [ev])
  {
    assert (evs + [ev])[..|evs|] == evs;
    StartedSnoc(evs, ev);
    if ev.ToolCallStop? {
      var k :| 0 <= k < |Unstopped(evs)| && Unstopped(evs)[k] == ev.index;
      assert n.open[k] == n.block[ev.index];
      BlocksWithout(n.block, Unstopped(evs), ev.index);
    }
  }

  lemma {:induction false} WellFormedBuilds(evs: seq<StreamEvent>)
    requires WellFormed(evs)
    ensures !HasDone(evs)
    ensures var (n, out) := Translate(evs); BuiltBy(n, out, evs)
  {
    if |evs| == 0 {
    } else {
      var init, ev := evs[..|evs| - 1], evs[|evs| - 1];
      assert evs == init + [ev];
      WellFormedBuilds(init);
      TranslateSnoc(init, ev);
      var (n, out) := Translate(init);
      if ev.ToolCallStart? {
        StartBuilds(n, out, init, ev);
      } else {
        OtherBuilds(n, out, init, ev);
      }
    }
  }

  /**
   A well-formed list is read back as itself under an injective renaming of tool index to block number,
   followed by one stop for each tool left open, in the order of their starts, and the canonical done.
   */
  lemma WellFormedRoundTrip(id: string, model: string, evs: seq<StreamEvent>, reason: string, usage: Option<Usage>)
    returns (r: map<int, nat>)
    requires WellFormed(evs)
    ensures Injective(r) && r.Keys == StartedIn(evs) && Covers(r, evs)
    ensures Known(r, Unstopped(evs))
    ensures var read := ReadFrames(W.AfterAll(W.Start(id, model), evs + [Done(reason, usage)]).out);
      && !read.failed
      && read.events == RenameAll(r, evs) + Stops(Blocks(r, Unstopped(evs)))
                        + [Done(CanonicalReason(reason), CanonicalUsage(usage))]
  {
    WellFormedBuilds(evs);
    var n := Translate(evs).0;
    r := n.block;
    TranslateSnoc(evs, Done(reason, usage));
    WrittenReads(id, model, evs + [Done(reason, usage)]);
    RenamedDone(n, Translate(evs).1, reason, usage);
  }
}
