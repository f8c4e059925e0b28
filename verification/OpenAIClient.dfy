/** What an OpenAI client reads of an event stream, in whatever order the events come, and when it is what they say. */
module OpenAIClient {
  import opened Wrappers
  import opened Ir
  import opened OpenAIStream
  import O = OpenAIWriter
  import R = AnthropicRoundTrip

  /** No done, and arguments only for a tool that has been started. */
  predicate StartsFirst(evs: seq<StreamEvent>) {
    |evs| == 0 ||
    var init, ev := evs[..|evs| - 1], evs[|evs| - 1];
    StartsFirst(init) && !ev.Done? && (ev.ToolCallDelta? ==> ev.index in R.StartedIn(init))
  }

  /** No tool is started a second time. */
  predicate StartsOnce(evs: seq<StreamEvent>) {
    |evs| == 0 ||
    var init, ev := evs[..|evs| - 1], evs[|evs| - 1];
    StartsOnce(init) && (ev.ToolCallStart? ==> ev.index !in R.StartedIn(init))
  }

  /**
   The client, reading the wire form of these events, has started the same tools and assembled the same transcript.
   */
  ghost predicate Copied(evs: seq<StreamEvent>) {
    var (p, out) := Run(INIT, O.WireItems(evs));
    && p == Parser(R.StartedIn(evs), "", None)
    && Assemble(out) == Assemble(evs) && Assemble(evs).end.None? && !HasDone(evs)
  }

  /** One more event that becomes one item. */
  lemma ItemCopied(evs: seq<StreamEvent>, ev: StreamEvent, it: Item)
    requires Copied(evs) && !ev.Done? && O.EventItems(ev) == [it]
    requires var (q, more) := StepItem(Parser(R.StartedIn(evs), "", None), it);
      q == Parser(R.StartedIn(evs + [ev]), "", None) && (more == [ev]
          || (more == [] && Assemble(evs + [ev]) == Assemble(evs)))
    ensures Copied(evs + [ev])
  {
    O.WireSnoc(evs, ev);
    O.CutSnoc(evs, ev);
    RunSnoc(INIT, O.WireItems(evs), it);
    var out := Run(INIT, O.WireItems(evs)).1;
    AssembleSnoc(evs, ev);
    AssembleSnoc(out, ev);
    assert out + [] == out;
  }

  /** One more event that leaves nothing on the wire. */
  lemma SilentCopied(evs: seq<StreamEvent>, ev: StreamEvent)
    requires Copied(evs) && (ev == TextDelta("") || ev.ToolCallStop?)
    ensures Copied(evs + [ev])
  {
    O.WireSnoc(evs, ev);
    O.CutSnoc(evs, ev);
    AssembleSnoc(evs, ev);
    R.StartedSnoc(evs, ev);
    assert O.WireItems(evs) + [] == O.WireItems(evs);
    assert Assemble(evs).text + "" == Assemble(evs).text;
  }

  lemma EmptyArguments(t: Transcript, i: int)
    ensures Extend(t, ToolCallDelta(i, "")) == t
  {
    var k := Latest(t.calls, i);
    if k >= 0 {
      assert t.calls[k].arguments + "" == t.calls[k].arguments;
      assert t.calls[k := t.calls[k]] == t.calls;
    }
  }

  lemma TidyStep(evs: seq<StreamEvent>, ev: StreamEvent)
    requires Copied(evs) && !ev.Done?
    requires ev.ToolCallStart? ==> ev.index !in R.StartedIn(evs)
    requires ev.ToolCallDelta? ==> ev.index in R.StartedIn(evs)
    ensures Copied(evs + [ev])
  {
    hide Copied, Run;
    R.StartedSnoc(evs, ev);
    AssembleSnoc(evs, ev);
    match ev
    case TextDelta(d) =>
      if d == "" {
        SilentCopied(evs, ev);
      } else {
        ItemCopied(evs, ev, TextItem(d));
      }
    case ToolCallStart(i, id, name) => ItemCopied(evs, ev, ToolItem(Fragment(i, id, name, "")));
    case ToolCallDelta(i, args) =>
      EmptyArguments(Assemble(evs), i);
      assert R.StartedIn(evs) + {i} == R.StartedIn(evs);
      ItemCopied(evs, ev, ToolItem(Fragment(i, "", "", args)));
    case ToolCallStop(_) => SilentCopied(evs, ev);
  }

  lemma {:induction false} TidyCopied(evs: seq<StreamEvent>)
    requires StartsFirst(evs) && StartsOnce(evs)
    ensures Copied(evs)
  {
    if |evs| == 0 {
    } else {
      var init, ev := evs[..|evs| - 1], evs[|evs| - 1];
      TidyCopied(init);
      TidyStep(init, ev);
      assert evs == init + [ev];
    }
  }

  // ---------- When a tool is started again ----------

  /** A client that has one call for each started index. */
  ghost predicate OneEach(started: set<int>, p: Parser, out: seq<StreamEvent>) {
    && p == Parser(started, "", None) && !HasDone(out) && Assemble(out).end.None?
    && |Assemble(out).calls| == |started|
  }

  /** What the client has after events whose arguments follow their starts: one call for each index. */
  ghost predicate Merged(evs: seq<StreamEvent>) {
    var (p, out) := Run(INIT, O.WireItems(evs));
    OneEach(R.StartedIn(evs), p, out)
  }

  lemma CallCount(t: Transcript, ev: StreamEvent)
    requires t.end.None? && !ev.Done?
    ensures Extend(t, ev).end.None?
    ensures |Extend(t, ev).calls| == |t.calls| + (if ev.ToolCallStart? then 1 else 0)
  {
  }

  lemma EventMore(out: seq<StreamEvent>, ev: StreamEvent)
    requires !HasDone(out) && Assemble(out).end.None? && !ev.Done?
    ensures !HasDone(out + [ev]) && Assemble(out + [ev]).end.None?
    ensures |Assemble(out + [ev]).calls| == |Assemble(out).calls| + (if ev.ToolCallStart? then 1 else 0)
  {
    hide Assemble, Extend, HasDone;
    AssembleSnoc(out, ev);
    CallCount(Assemble(out), ev);
    O.CutSnoc(out, ev);
  }

  lemma FragmentMore(started: set<int>, p: Parser, out: seq<StreamEvent>, f: Fragment)
    requires OneEach(started, p, out)
    ensures var (q, more) := StepItem(p, ToolItem(f)); OneEach(started + {f.index}, q, out + more)
  {
    hide Assemble, HasDone;
    var mid := if f.index in started then out else out + [ToolCallStart(f.index, f.id, f.name)];
    EventMore(out, ToolCallStart(f.index, f.id, f.name));
    EventMore(mid, ToolCallDelta(f.index, f.arguments));
    assert O.WithTool(out, started, f) == out + ToolEvents(started, f);
    if f.index in started {
      assert started + {f.index} == started;
    }
  }

  lemma MergedFragment(evs: seq<StreamEvent>, ev: StreamEvent, f: Fragment)
    requires Merged(evs) && O.EventItems(ev) == [ToolItem(f)]
    requires ev.ToolCallStart? || (ev.ToolCallDelta? && ev.index in R.StartedIn(evs))
    ensures Merged(evs + [ev])
  {
    hide Run, O.WireItems, OneEach, R.StartedIn;
    O.WireSnoc(evs, ev);
    R.StartedSnoc(evs, ev);
    RunSnoc(INIT, O.WireItems(evs), ToolItem(f));
    var (p, out) := Run(INIT, O.WireItems(evs));
    FragmentMore(R.StartedIn(evs), p, out, f);
    assert R.StartedIn(evs + [ev]) == R.StartedIn(evs) + {f.index};
  }

  lemma MergedText(evs: seq<StreamEvent>, d: string)
    requires Merged(evs)
    ensures Merged(evs + [TextDelta(d)])
  {
    hide Run, O.WireItems, Assemble, HasDone, R.StartedIn;
    var ev := TextDelta(d);
    O.WireSnoc(evs, ev);
    R.StartedSnoc(evs, ev);
    assert R.StartedIn(evs) + {} == R.StartedIn(evs);
    var out := Run(INIT, O.WireItems(evs)).1;
    if d == "" {
      assert O.WireItems(evs) + [] == O.WireItems(evs);
    } else {
      RunSnoc(INIT, O.WireItems(evs), TextItem(d));
      EventMore(out, ev);
    }
  }

  lemma MergedStop(evs: seq<StreamEvent>, i: int)
    requires Merged(evs)
    ensures Merged(evs + [ToolCallStop(i)])
  {
    hide Run, O.WireItems, OneEach, R.StartedIn;
    O.WireSnoc(evs, ToolCallStop(i));
    R.StartedSnoc(evs, ToolCallStop(i));
    assert R.StartedIn(evs) + {} == R.StartedIn(evs);
    assert O.WireItems(evs) + [] == O.WireItems(evs);
  }

  lemma MergedNext(evs: seq<StreamEvent>, ev: StreamEvent)
    requires Merged(evs) && !ev.Done? && (ev.ToolCallDelta? ==> ev.index in R.StartedIn(evs))
    ensures Merged(evs + [ev])
  {
    hide Merged, R.StartedIn;
    match ev
    case TextDelta(d) => MergedText(evs, d);
    case ToolCallStart(i, id, name) => MergedFragment(evs, ev, Fragment(i, id, name, ""));
    case ToolCallDelta(i, args) => MergedFragment(evs, ev, Fragment(i, "", "", args));
    case ToolCallStop(i) => MergedStop(evs, i);
  }

  lemma {:induction false} AllMerged(evs: seq<StreamEvent>)
    requires StartsFirst(evs)
    ensures Merged(evs)
  {
    hide Merged, R.StartedIn;
    if |evs| == 0 {
      MergedNothing();
    } else {
      var init, ev := evs[..|evs| - 1], evs[|evs| - 1];
      AllMerged(init);
      MergedNext(init, ev);
      assert evs == init + [ev];
    }
  }

  lemma MergedNothing()
    ensures Merged([])
  {
    assert R.StartedIn([]) == {};
  }

  /** The events themselves have a call for every start: as many as indices exactly when no index starts twice. */
  lemma {:induction false} CallsOfEvents(evs: seq<StreamEvent>)
    requires StartsFirst(evs)
    ensures !HasDone(evs) && Assemble(evs).end.None?
    ensures |Assemble(evs).calls| >= |R.StartedIn(evs)|
    ensures |Assemble(evs).calls| == |R.StartedIn(evs)| <==> StartsOnce(evs)
  {
    if |evs| == 0 {
    } else {
      var init, ev := evs[..|evs| - 1], evs[|evs| - 1];
      CallsOfEvents(init);
      assert evs == init + [ev];
      hide Assemble, HasDone, R.StartedIn;
      EventMore(init, ev);
      R.StartedSnoc(init, ev);
      var started := R.StartedIn(init);
      assert started + {} == started;
      if ev.ToolCallStart? && ev.index in started {
        assert started + {ev.index} == started;
      }
    }
  }

  // ---------- What an OpenAI client reads ----------

  /** The events before the one that closes the stream. */
  function Body(evs: seq<StreamEvent>): seq<StreamEvent> {
    var all := Complete(evs);
    if |all| == 0 then [] else all[..|all| - 1]
  }

  lemma {:induction false} CompleteSplit(evs: seq<StreamEvent>)
    ensures var all := Complete(evs); all != [] && all[|all| - 1].Done? && !HasDone(Body(evs))
    ensures HasDone(evs) ==> Complete(evs) == Cut(evs)
    ensures !HasDone(evs) ==> Body(evs) == evs && Cut(evs) == evs
  {
    if |evs| == 0 {
    } else {
      var init, ev := evs[..|evs| - 1], evs[|evs| - 1];
      assert evs == init + [ev];
      O.CutSnoc(init, ev);
      CompleteSplit(init);
    }
  }

  /** Whatever was written, and however the stream was closed, the client finds the body's items and one end. */
  lemma FinalItems(h: O.Header, evs: seq<StreamEvent>, aborted: bool, msg: string)
    ensures Complete(evs) != []
    ensures var all := Complete(evs);
      var out := O.Close(O.AfterAll(O.Start(h), evs), aborted, msg).out;
      && all == Body(evs) + [all[|all| - 1]] && !O.ReadAll(out).failed
      && O.GoodItems(out) == O.WireItems(Body(evs)) + O.EventItems(all[|all| - 1])
  {
    CompleteSplit(evs);
    assert O.EventItems(Done("", None)) == [EndItem];
    var all, w := Complete(evs), O.AfterAll(O.Start(h), evs);
    assert all == Body(evs) + [all[|all| - 1]];
    hide O.ReadAll, O.GoodItems, O.WireItems, O.EventItems, O.AfterAll, Cut, Body, HasDone;
    O.WrittenItems(h, evs);
    O.WireSnoc(Body(evs), all[|all| - 1]);
    if !HasDone(evs) {
      O.ClosedItems(w, msg);
    }
  }

  lemma ClientItems(h: O.Header, evs: seq<StreamEvent>, aborted: bool, msg: string)
    ensures Complete(evs) != []
    ensures var all := Complete(evs);
      var read := O.ReadAll(O.Close(O.AfterAll(O.Start(h), evs), aborted, msg).out);
      && all == Body(evs) + [all[|all| - 1]] && !read.failed
      && read.events == Run(INIT, O.WireItems(Body(evs)) + O.EventItems(all[|all| - 1])).1
  {
    hide *;
    FinalItems(h, evs, aborted, msg);
    O.ReadAllIsRun(O.Close(O.AfterAll(O.Start(h), evs), aborted, msg).out);
  }

  /** The client's transcript: that of the body as it reads it, closed. */
  lemma ClientTranscript(h: O.Header, evs: seq<StreamEvent>, aborted: bool, msg: string)
    requires StartsFirst(Body(evs))
    ensures var all := Complete(evs);
      var read := O.ReadAll(O.Close(O.AfterAll(O.Start(h), evs), aborted, msg).out);
      && !read.failed && all != []
      && Assemble(read.events) == Assemble(Run(INIT, O.WireItems(Body(evs))).1).(end := Some(all[|all| - 1]))
      && Assemble(all) == Assemble(Body(evs)).(end := Some(all[|all| - 1]))
  {
    ClientItems(h, evs, aborted, msg);
    CompleteSplit(evs);
    AllMerged(Body(evs));
    CallsOfEvents(Body(evs));
    var all := Complete(evs);
    var done := all[|all| - 1];
    var (p, out) := Run(INIT, O.WireItems(Body(evs)));
    hide O.WireItems, O.ReadAll, O.Close, O.AfterAll, Assemble, Body;
    RunConcat(INIT, O.WireItems(Body(evs)), O.EventItems(done));
    O.ReadDone(p, done.finishReason, done.usage);
    AssembleSnoc(out, done);
    AssembleSnoc(Body(evs), done);
  }

  /**
   For every event list whose arguments follow their starts, written to an OpenAI client and closed in either way: the
   client assembles what the events say exactly when no tool is started a second time.
   */
  lemma OpenAIClientMeaning(h: O.Header, evs: seq<StreamEvent>, aborted: bool, msg: string)
    requires StartsFirst(Body(evs))
    ensures var read := O.ReadAll(O.Close(O.AfterAll(O.Start(h), evs), aborted, msg).out);
      && !read.failed
      && (Assemble(read.events) == Assemble(Complete(evs)) <==> StartsOnce(Body(evs)))
  {
    ClientTranscript(h, evs, aborted, msg);
    AllMerged(Body(evs));
    CallsOfEvents(Body(evs));
    hide Run, O.ReadAll, O.Close, O.AfterAll, O.WireItems, Assemble, StartsFirst, StartsOnce, Body, Complete;
    if StartsOnce(Body(evs)) {
      TidyCopied(Body(evs));
    }
  }

  /** Otherwise the client has one call for each index, where the events have one for each start. */
  lemma RepeatedStartsMerge(h: O.Header, evs: seq<StreamEvent>, aborted: bool, msg: string)
    requires StartsFirst(Body(evs))
    ensures var read := O.ReadAll(O.Close(O.AfterAll(O.Start(h), evs), aborted, msg).out);
      && |Assemble(read.events).calls| == |R.StartedIn(Body(evs))|
      && (|Assemble(read.events).calls| < |Assemble(Complete(evs)).calls| <==> !StartsOnce(Body(evs)))
  {
    ClientTranscript(h, evs, aborted, msg);
    AllMerged(Body(evs));
    CallsOfEvents(Body(evs));
  }
}
