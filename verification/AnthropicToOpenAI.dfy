/** What an Anthropic upstream says, and what an OpenAI client makes of it: any documents, any text. */
module AnthropicToOpenAI {
  import opened Wrappers
  import opened Json
  import opened Ir
  import O = OpenAIWriter
  import C = OpenAIClient
  import P = AnthropicParser
  import R = AnthropicRoundTrip
  import S = Sse
  import X = AnthropicSse
  import L = AnthropicWire

  // ---------- What an Anthropic upstream says ----------

  predicate ToolStart(e: P.Event) {
    e.typ == "content_block_start" && e.block.Some? && e.block.value.typ == "tool_use"
  }

  predicate TextPiece(e: P.Event) {
    e.typ == "content_block_delta" && e.delta.typ == "text_delta"
  }

  predicate JsonPiece(e: P.Event) {
    e.typ == "content_block_delta" && e.delta.typ == "input_json_delta"
  }

  predicate Last(e: P.Event) {
    e.typ == "message_stop"
  }

  function TextOf(es: seq<P.Event>): string {
    if |es| == 0 then "" else
    TextOf(es[..|es| - 1]) + (if TextPiece(es[|es| - 1]) then es[|es| - 1].delta.text else "")
  }

  /** All the arguments sent for one index. */
  function Pieces(es: seq<P.Event>, index: int): string {
    if |es| == 0 then "" else
    var e := es[|es| - 1];
    Pieces(es[..|es| - 1], index) + (if JsonPiece(e) && e.index == index then e.delta.partial else "")
  }

  /** A call for each tool_use block, with the arguments sent for its index after it. */
  function CallsOf(es: seq<P.Event>): seq<Call> {
    if |es| == 0 then [] else
    CallOf(es[0], Pieces(es[1..], es[0].index)) + CallsOf(es[1..])
  }

  function StopReasonOf(es: seq<P.Event>): string {
    if |es| == 0 then "" else
    var e := es[|es| - 1];
    if e.typ == "message_delta" && e.delta.stopReason != "" then e.delta.stopReason else StopReasonOf(es[..|es| - 1])
  }

  function UsageOf(es: seq<P.Event>): Option<Usage> {
    if |es| == 0 then None else
    var e := es[|es| - 1];
    if e.typ == "message_delta" && (e.inputTokens > 0 || e.outputTokens > 0)
    then Some(Usage(e.inputTokens, e.outputTokens, 0)) else UsageOf(es[..|es| - 1])
  }

  /** The events before the first message_stop. */
  function Live(es: seq<P.Event>): seq<P.Event> {
    if |es| == 0 then [] else
    var init := es[..|es| - 1];
    if Stopped(init) || Last(es[|es| - 1]) then Live(init) else es
  }

  predicate Stopped(es: seq<P.Event>) {
    exists k :: 0 <= k < |es| && Last(es[k])
  }

  /**
   The upstream's meaning, defined on its events without the parser. A stream cut short is closed by an empty done.
   */
  function Meaning(es: seq<P.Event>): Transcript {
    Transcript(TextOf(Live(es)), CallsOf(Live(es)),
      Some(if Stopped(es) then Done(Reason(StopReasonOf(Live(es))), UsageOf(Live(es))) else Done("", None)))
  }

  /** Why the message ended, in OpenAI's words; a stream that gives no reason or an unknown one has just stopped. */
  function Reason(stop: string): string {
    match stop
    case "tool_use" => "tool_calls"
    case "max_tokens" => "length"
    case _ => "stop"
  }

  /** No two tool_use blocks share an index. */
  predicate DistinctBlocks(es: seq<P.Event>) {
    forall i, j :: 0 <= i < j < |es| && ToolStart(es[i]) && ToolStart(es[j]) ==> es[i].index != es[j].index
  }

  function Started(es: seq<P.Event>): set<int> {
    set e | e in es && ToolStart(e) :: e.index
  }

  lemma SayingsSnoc(es: seq<P.Event>, e: P.Event)
    ensures TextOf(es + [e]) == if TextPiece(e) then TextOf(es) + e.delta.text else TextOf(es)
    ensures forall i ::
      Pieces(es + [e], i) ==
      Pieces(es, i) + (if JsonPiece(e) && e.index == i then e.delta.partial else "")
    ensures StopReasonOf(es + [e]) ==
      if e.typ == "message_delta" && e.delta.stopReason != "" then e.delta.stopReason else StopReasonOf(es)
    ensures UsageOf(es + [e]) ==
      if e.typ == "message_delta" && (e.inputTokens > 0 || e.outputTokens > 0)
      then Some(Usage(e.inputTokens, e.outputTokens, 0)) else UsageOf(es)
  {
    assert (es + [e])[..|es|] == es;
    assert TextOf(es) + "" == TextOf(es);
  }

  lemma StartedMore(es: seq<P.Event>, e: P.Event)
    ensures Started(es + [e]) == Started(es) + (if ToolStart(e) then {e.index} else {})
    ensures DistinctBlocks(es + [e]) <==> DistinctBlocks(es) && (ToolStart(e) ==> e.index !in Started(es))
  {
    var all := es + [e];
    assert all[|es|] == e && forall k :: 0 <= k < |es| ==> all[k] == es[k];
    assert forall x :: x in all <==> x in es || x == e;
    if ToolStart(e) && e.index in Started(es) {
      var x :| x in es && ToolStart(x) && x.index == e.index;
      var k :| 0 <= k < |es| && es[k] == x;
      assert ToolStart(all[k]) && all[k].index == all[|es|].index;
    }
    forall k | 0 <= k < |es| && ToolStart(es[k])
      ensures es[k].index in Started(es)
    {
      assert es[k] in es;
    }
  }

  /** The arguments of one more piece go to every call of its index. */
  function WithPiece(c: Call, e: P.Event): Call {
    if JsonPiece(e) && e.index == c.index then c.(arguments := c.arguments + e.delta.partial) else c
  }

  function WithPieces(calls: seq<Call>, e: P.Event): (r: seq<Call>)
    ensures |r| == |calls| && forall k :: 0 <= k < |calls| ==> r[k] == WithPiece(calls[k], e)
  {
    seq(|calls|, k requires 0 <= k < |calls| => WithPiece(calls[k], e))
  }

  function CallOf(e: P.Event, arguments: string): seq<Call> {
    if ToolStart(e) then [Call(e.index, e.block.value.id, e.block.value.name, arguments)] else []
  }

  lemma HeadPiece(x: P.Event, arguments: string, e: P.Event)
    ensures CallOf(x, arguments + (if JsonPiece(e) && e.index == x.index then e.delta.partial else "")) ==
      WithPieces(CallOf(x, arguments), e)
  {
    assert arguments + "" == arguments;
  }

  lemma PiecesJoined(head: seq<Call>, tail: seq<Call>, more: seq<Call>, e: P.Event)
    ensures WithPieces(head, e) + (WithPieces(tail, e) + more) == WithPieces(head + tail, e) + more
  {
    hide WithPiece;
    assert WithPieces(head + tail, e) == WithPieces(head, e) + WithPieces(tail, e);
  }

  lemma CallsFirst(e: P.Event, es: seq<P.Event>)
    ensures CallsOf([e] + es) == CallOf(e, Pieces(es, e.index)) + CallsOf(es)
  {
    assert ([e] + es)[1..] == es;
  }

  lemma {:induction false} CallsSnoc(es: seq<P.Event>, e: P.Event)
    ensures CallsOf(es + [e]) == WithPieces(CallsOf(es), e) + CallOf(e, "")
  {
    hide Pieces, JsonPiece, ToolStart, CallOf, WithPiece;
    if |es| > 0 {
      var x, rest := es[0], es[1..];
      assert es == [x] + rest && es + [e] == [x] + (rest + [e]);
      CallsSnoc(rest, e);
      SayingsSnoc(rest, e);
      CallsFirst(x, rest);
      CallsFirst(x, rest + [e]);
      HeadPiece(x, Pieces(rest, x.index), e);
      PiecesJoined(CallOf(x, Pieces(rest, x.index)), CallsOf(rest), CallOf(e, ""), e);
    } else {
      CallsFirst(e, []);
      assert es + [e] == [e] + [] && CallsOf([]) == [] && WithPieces([], e) == [];
      assert Pieces([], e.index) == "" by {
        PiecesOfNothing(e.index);
      }
      assert CallOf(e, "") + [] == [] + CallOf(e, "");
    }
  }

  lemma PiecesOfNothing(i: int)
    ensures Pieces([], i) == ""
  {
  }

  // ---------- The parser hears what the upstream says ----------

  /** The parser on decoded events; an error event leaves nothing. */
  function RunEvents(es: seq<P.Event>): (P.Parser, seq<StreamEvent>) {
    if |es| == 0 then (P.INIT, []) else
    var (p, evs) := RunEvents(es[..|es| - 1]);
    match P.FeedEvent(p, es[|es| - 1])
    case (q, Ok(more)) => (q, evs + more)
    case (q, Err(_)) => (q, evs)
  }

  /** The calls are for these indices, each for another one if `distinct`. */
  ghost predicate Indexed(calls: seq<Call>, starts: set<int>, distinct: bool) {
    && (forall k :: 0 <= k < |calls| ==> calls[k].index in starts)
    && (forall i :: i in starts ==> HasIndex(calls, i))
    && (distinct ==> forall j, k :: 0 <= j < k < |calls| ==> calls[j].index != calls[k].index)
  }

  ghost predicate HasIndex(calls: seq<Call>, i: int) {
    exists k :: 0 <= k < |calls| && calls[k].index == i
  }

  lemma IndexedMore(calls: seq<Call>, starts: set<int>, distinct: bool, e: P.Event)
    requires Indexed(calls, starts, distinct)
    ensures Indexed(WithPieces(calls, e) + CallOf(e, ""), starts + (if ToolStart(e) then {e.index} else {}),
                    distinct && (ToolStart(e) ==> e.index !in starts))
  {
    var all := WithPieces(calls, e) + CallOf(e, "");
    hide JsonPiece, ToolStart;
    assert forall k :: 0 <= k < |calls| ==> all[k].index == calls[k].index;
    forall i | i in starts
      ensures HasIndex(all, i)
    {
      var k :| 0 <= k < |calls| && calls[k].index == i;
      assert all[k].index == i;
    }
    if ToolStart(e) {
      assert all[|calls|].index == e.index;
      assert HasIndex(all, e.index);
    }
  }

  lemma {:induction false} CallIndices(es: seq<P.Event>)
    ensures Indexed(CallsOf(es), Started(es), DistinctBlocks(es))
  {
    if |es| == 0 {
    } else {
      var init, e := es[..|es| - 1], es[|es| - 1];
      assert es == init + [e];
      CallIndices(init);
      CallsSnoc(init, e);
      StartedMore(init, e);
      hide CallsOf, Started, DistinctBlocks, ToolStart, Indexed;
      IndexedMore(CallsOf(init), Started(init), DistinctBlocks(init), e);
    }
  }

  /** The parser before any message_stop: its state and its events say what the upstream has said. */
  ghost predicate Hears(es: seq<P.Event>, p: P.Parser, evs: seq<StreamEvent>) {
    var t := Assemble(evs);
    && p == P.Parser(Started(es), false, StopReasonOf(es), UsageOf(es))
    && R.StartedIn(evs) == Started(es)
    && C.StartsFirst(evs) && (C.StartsOnce(evs) <==> DistinctBlocks(es))
    && t.text == TextOf(es) && t.end.None?
    && |t.calls| == |CallsOf(es)| && (DistinctBlocks(es) ==> t.calls == CallsOf(es))
  }

  /** One more event after the body's. */
  lemma BodyMore(evs: seq<StreamEvent>, ev: StreamEvent)
    requires C.StartsFirst(evs) && !ev.Done? && (ev.ToolCallDelta? ==> ev.index in R.StartedIn(evs))
    ensures C.StartsFirst(evs + [ev])
    ensures C.StartsOnce(evs + [ev]) <==> C.StartsOnce(evs) && (ev.ToolCallStart? ==> ev.index !in R.StartedIn(evs))
    ensures R.StartedIn(evs + [ev]) == R.StartedIn(evs) + (if ev.ToolCallStart? then {ev.index} else {})
    ensures Assemble(evs + [ev]) == Extend(Assemble(evs), ev)
  {
    assert (evs + [ev])[..|evs|] == evs;
    R.StartedSnoc(evs, ev);
    AssembleSnoc(evs, ev);
  }

  lemma NoPieces(calls: seq<Call>, e: P.Event)
    requires JsonPiece(e) ==> forall k :: 0 <= k < |calls| ==> calls[k].index != e.index
    ensures WithPieces(calls, e) == calls
  {
  }

  /** What is said after one more event, in the terms the parser needs. */
  lemma SaidMore(es: seq<P.Event>, e: P.Event)
    ensures Started(es + [e]) == Started(es) + (if ToolStart(e) then {e.index} else {})
    ensures DistinctBlocks(es + [e]) <==> DistinctBlocks(es) && (ToolStart(e) ==> e.index !in Started(es))
    ensures TextOf(es + [e]) == if TextPiece(e) then TextOf(es) + e.delta.text else TextOf(es)
    ensures StopReasonOf(es + [e]) ==
      if e.typ == "message_delta" && e.delta.stopReason != "" then e.delta.stopReason else StopReasonOf(es)
    ensures UsageOf(es + [e]) ==
      if e.typ == "message_delta" && (e.inputTokens > 0 || e.outputTokens > 0)
      then Some(Usage(e.inputTokens, e.outputTokens, 0)) else UsageOf(es)
    ensures CallsOf(es + [e]) == WithPieces(CallsOf(es), e) + CallOf(e, "")
    ensures !JsonPiece(e) || e.index !in Started(es) ==> CallsOf(es + [e]) == CallsOf(es) + CallOf(e, "")
  {
    StartedMore(es, e);
    SayingsSnoc(es, e);
    CallsSnoc(es, e);
    CallIndices(es);
    if !JsonPiece(e) || e.index !in Started(es) {
      NoPieces(CallsOf(es), e);
    }
  }

  lemma HearsStart(es: seq<P.Event>, e: P.Event, p: P.Parser, evs: seq<StreamEvent>)
    requires Hears(es, p, evs) && ToolStart(e)
    ensures var (q, r) := P.FeedEvent(p, e); r.Ok? && Hears(es + [e], q, evs + r.value)
  {
    hide CallsOf, Started, DistinctBlocks, TextOf, StopReasonOf, UsageOf, C.StartsFirst, C.StartsOnce, Assemble,
        R.StartedIn;
    SaidMore(es, e);
    BodyMore(evs, ToolCallStart(e.index, e.block.value.id, e.block.value.name));
  }

  lemma HearsText(es: seq<P.Event>, e: P.Event, p: P.Parser, evs: seq<StreamEvent>)
    requires Hears(es, p, evs) && TextPiece(e)
    ensures var (q, r) := P.FeedEvent(p, e); r.Ok? && Hears(es + [e], q, evs + r.value)
  {
    hide CallsOf, Started, DistinctBlocks, TextOf, StopReasonOf, UsageOf, C.StartsFirst, C.StartsOnce, Assemble,
        R.StartedIn;
    SaidMore(es, e);
    BodyMore(evs, TextDelta(e.delta.text));
    Unchanged(es, e);
  }

  lemma Unchanged(es: seq<P.Event>, e: P.Event)
    requires !ToolStart(e)
    ensures Started(es) + {} == Started(es) && CallsOf(es) + CallOf(e, "") == CallsOf(es)
  {
  }

  lemma HearsPiece(es: seq<P.Event>, e: P.Event, p: P.Parser, evs: seq<StreamEvent>)
    requires Hears(es, p, evs) && JsonPiece(e) && e.index in Started(es)
    ensures var (q, r) := P.FeedEvent(p, e); r.Ok? && Hears(es + [e], q, evs + r.value)
  {
    hide CallsOf, Started, DistinctBlocks, TextOf, StopReasonOf, UsageOf, C.StartsFirst, C.StartsOnce, Assemble,
        R.StartedIn, Extend;
    SaidMore(es, e);
    BodyMore(evs, ToolCallDelta(e.index, e.delta.partial));
    Unchanged(es, e);
    C.CallCount(Assemble(evs), ToolCallDelta(e.index, e.delta.partial));
    PieceChangesCalls(Assemble(evs), ToolCallDelta(e.index, e.delta.partial));
    if DistinctBlocks(es) {
      PieceReachesItsCall(es, e, Assemble(evs));
    }
  }

  lemma PieceChangesCalls(t: Transcript, ev: StreamEvent)
    requires ev.ToolCallDelta?
    ensures Extend(t, ev).text == t.text
  {
  }

  lemma PieceReachesItsCall(es: seq<P.Event>, e: P.Event, t: Transcript)
    requires DistinctBlocks(es) && JsonPiece(e) && e.index in Started(es) && t.calls == CallsOf(es) && t.end.None?
    ensures Extend(t, ToolCallDelta(e.index, e.delta.partial)) == t.(calls := WithPieces(t.calls, e))
  {
    hide CallsOf, Started, DistinctBlocks;
    CallIndices(es);
    PieceReachesOne(t, e);
  }

  /** With distinct indices a piece reaches exactly the call a client would give it to. */
  lemma PieceReachesOne(t: Transcript, e: P.Event)
    requires JsonPiece(e) && HasIndex(t.calls, e.index)
    requires forall j, k :: 0 <= j < k < |t.calls| ==> t.calls[j].index != t.calls[k].index
    ensures t.end.None? ==>
      Extend(t, ToolCallDelta(e.index, e.delta.partial)) == t.(calls := WithPieces(t.calls, e))
  {
    var k := Latest(t.calls, e.index);
    assert k >= 0;
  }

  /** An event that gives nothing, or only the stop of a block. */
  lemma HearsOther(es: seq<P.Event>, e: P.Event, p: P.Parser, evs: seq<StreamEvent>)
    requires Hears(es, p, evs) && !ToolStart(e) && !TextPiece(e) && !Last(e)
    requires JsonPiece(e) ==> e.index !in Started(es)
    ensures var (q, r) := P.FeedEvent(p, e); Hears(es + [e], q, if r.Ok? then evs + r.value else evs)
  {
    hide CallsOf, Started, DistinctBlocks, TextOf, StopReasonOf, UsageOf, C.StartsFirst, C.StartsOnce, Assemble,
        R.StartedIn;
    SaidMore(es, e);
    Unchanged(es, e);
    assert evs + [] == evs;
    if e.typ == "content_block_stop" {
      BodyMore(evs, ToolCallStop(e.index));
    }
  }

  lemma HearsStep(es: seq<P.Event>, e: P.Event, p: P.Parser, evs: seq<StreamEvent>)
    requires Hears(es, p, evs) && !Last(e)
    ensures var (q, r) := P.FeedEvent(p, e); Hears(es + [e], q, if r.Ok? then evs + r.value else evs)
  {
    hide Hears, P.FeedEvent, Started;
    if ToolStart(e) {
      HearsStart(es, e, p, evs);
    } else if TextPiece(e) {
      HearsText(es, e, p, evs);
    } else if JsonPiece(e) && e.index in Started(es) {
      HearsPiece(es, e, p, evs);
    } else {
      HearsOther(es, e, p, evs);
    }
  }

  lemma StoppedSnoc(es: seq<P.Event>, e: P.Event)
    ensures Stopped(es + [e]) <==> Stopped(es) || Last(e)
    ensures Live(es + [e]) == if Stopped(es) || Last(e) then Live(es) else es + [e]
    ensures !Stopped(es) ==> Live(es) == es
  {
    var all := es + [e];
    assert all[..|es|] == es && all[|es|] == e;
    assert forall k :: 0 <= k < |es| ==> all[k] == es[k];
    LiveIfRunning(es);
  }

  lemma LiveIfRunning(es: seq<P.Event>)
    ensures !Stopped(es) ==> Live(es) == es
  {
    if |es| > 0 && !Stopped(es) {
      var init := es[..|es| - 1];
      assert forall k :: 0 <= k < |init| ==> init[k] == es[k];
      assert !Last(es[|es| - 1]);
    }
  }

  /** The parser's events: the body it heard, and the done if there was a message_stop. */
  ghost predicate Heard(es: seq<P.Event>, body: seq<StreamEvent>) {
    var (p, evs) := RunEvents(es);
    if Stopped(es) then
      && p.stopped
      && Hears(Live(es), P.Parser(Started(Live(es)), false, StopReasonOf(Live(es)), UsageOf(Live(es))), body)
      && evs == body + [Done(Reason(StopReasonOf(Live(es))), UsageOf(Live(es)))]
    else evs == body && Hears(es, p, body)
  }

  lemma HeardNothing()
    ensures Heard([], [])
  {
    assert Started([]) == {} && R.StartedIn([]) == {};
  }

  lemma RunEventsSnoc(es: seq<P.Event>, e: P.Event)
    ensures var (p, evs) := RunEvents(es);
      RunEvents(es + [e]) == match P.FeedEvent(p, e) case (q, Ok(more)) => (q, evs + more) case (q, Err(_)) => (q, evs)
  {
    assert (es + [e])[..|es|] == es;
  }

  lemma HeardMore(es: seq<P.Event>, e: P.Event, body: seq<StreamEvent>) returns (body': seq<StreamEvent>)
    requires Heard(es, body)
    ensures Heard(es + [e], body')
  {
    StoppedSnoc(es, e);
    RunEventsSnoc(es, e);
    hide RunEvents, Live, Stopped;
    body' := body;
    var (p, evs) := RunEvents(es);
    if Stopped(es) {
      assert evs + [] == evs;
    } else if Last(e) {
      assert P.FeedEvent(p, e).1 == Ok([Done(Reason(p.finishReason), p.usage)]);
    } else {
      HearsStep(es, e, p, evs);
      body' := RunEvents(es + [e]).1;
    }
  }

  lemma {:induction false} EventsHeard(es: seq<P.Event>) returns (body: seq<StreamEvent>)
    ensures Heard(es, body)
  {
    if |es| == 0 {
      HeardNothing();
      body := [];
      assert es == [];
    } else {
      body := EventsHeard(es[..|es| - 1]);
      body := HeardMore(es[..|es| - 1], es[|es| - 1], body);
      assert es == es[..|es| - 1] + [es[|es| - 1]];
    }
  }

  /** The parser's events, closed, have the heard body. */
  lemma ClosedBody(es: seq<P.Event>, body: seq<StreamEvent>)
    requires Heard(es, body)
    ensures var evs := RunEvents(es).1;
      && C.Body(evs) == body && Complete(evs) != []
      && Complete(evs)[|Complete(evs)| - 1] == Meaning(es).end.value
  {
    var evs := RunEvents(es).1;
    var ls := if Stopped(es) then Live(es) else es;
    C.CallsOfEvents(body);
    C.CompleteSplit(evs);
    LiveIfRunning(es);
    if Stopped(es) {
      O.CutSnoc(body, evs[|evs| - 1]);
    }
  }

  // ---------- The client ----------

  /** With distinct tool_use blocks the parser's events, closed, assemble to what the upstream says. */
  lemma EventsMean(es: seq<P.Event>)
    requires DistinctBlocks(Live(es))
    ensures Assemble(Complete(RunEvents(es).1)) == Meaning(es)
  {
    var evs := RunEvents(es).1;
    var body := EventsHeard(es);
    ClosedBody(es, body);
    LiveIfRunning(es);
    C.CompleteSplit(evs);
    hide RunEvents, Assemble, Complete, Live, Stopped, Started, DistinctBlocks, TextOf, CallsOf, StopReasonOf, UsageOf;
    AssembleSnoc(body, Meaning(es).end.value);
    assert Complete(evs) == body + [Meaning(es).end.value];
  }

  /** An OpenAI client assembles what the upstream says exactly when its tool_use blocks have distinct indices. */
  lemma EventsToClient(h: O.Header, es: seq<P.Event>, aborted: bool, msg: string)
    ensures var read := O.ReadAll(O.Close(O.AfterAll(O.Start(h), RunEvents(es).1), aborted, msg).out);
      !read.failed && (Assemble(read.events) == Meaning(es) <==> DistinctBlocks(Live(es)))
  {
    var evs := RunEvents(es).1;
    var body := EventsHeard(es);
    ClosedBody(es, body);
    LiveIfRunning(es);
    assert C.StartsFirst(body) && (C.StartsOnce(body) <==> DistinctBlocks(Live(es)));
    C.OpenAIClientMeaning(h, evs, aborted, msg);
    C.RepeatedStartsMerge(h, evs, aborted, msg);
    C.ClientTranscript(h, evs, aborted, msg);
    assert Assemble(Complete(evs)) == Assemble(body).(end := Meaning(es).end);
    hide O.ReadAll, O.Close, O.AfterAll, Assemble, RunEvents;
  }

  // ---------- From text ----------

  function Decoded(codec: Codec, payload: string): Option<P.Event> {
    match codec.dec(payload)
    case None => None
    case Some(doc) => if L.EventOk(doc) then Some(L.EventIn(doc)) else None
  }

  /**
   The events up to the first payload that cannot be decoded or reports an error before the message_stop, if there
   is one.
   */
  function EventsOf(codec: Codec, payloads: seq<string>): (seq<P.Event>, bool) {
    if |payloads| == 0 then ([], false) else
    var (es, broken) := EventsOf(codec, payloads[..|payloads| - 1]);
    if broken then (es, true) else
    match Decoded(codec, payloads[|payloads| - 1])
    case None => (es, true)
    case Some(e) => if e.typ == "error" && !Stopped(es) then (es, true) else (es + [e], false)
  }

  lemma {:induction false} PayloadsHeard(codec: Codec, payloads: seq<string>)
    ensures var (es, broken) := EventsOf(codec, payloads);
      var r := X.ReadPayloads(codec, payloads);
      r.failed == broken && (r.parser, r.events) == RunEvents(es)
  {
    hide P.DecodeEvent, P.FeedEvent, RunEvents, Stopped, L.EventOk, L.EventIn;
    if |payloads| == 0 {
      NoEvents();
    } else {
      var doc := codec.dec(payloads[|payloads| - 1]);
      if doc.Some? {
        L.EventDecodes(doc.value);
      }
      PayloadsHeard(codec, payloads[..|payloads| - 1]);
      var (es, broken) := EventsOf(codec, payloads[..|payloads| - 1]);
      if !broken && Decoded(codec, payloads[|payloads| - 1]).Some? {
        var e := Decoded(codec, payloads[|payloads| - 1]).value;
        FeedFails(es, e);
        RunEventsSnoc(es, e);
      }
    }
  }

  lemma NoEvents()
    ensures RunEvents([]) == (P.INIT, [])
  {
  }

  /** The parser refuses exactly an error event before the message_stop. */
  lemma FeedFails(es: seq<P.Event>, e: P.Event)
    ensures P.FeedEvent(RunEvents(es).0, e).1.Err? <==> e.typ == "error" && !Stopped(es)
  {
    hide RunEvents, Stopped, Heard;
    var body := EventsHeard(es);
    StopsWithMessage(es, body);
  }

  lemma StopsWithMessage(es: seq<P.Event>, body: seq<StreamEvent>)
    requires Heard(es, body)
    ensures RunEvents(es).0.stopped <==> Stopped(es)
  {
    hide RunEvents, Stopped, Live, Started, StopReasonOf, UsageOf, CallsOf, TextOf, DistinctBlocks, Assemble;
  }

  /**
   For every text an Anthropic upstream sends, readable to its end or not, with whatever documents in it: the OpenAI
   client assembles what the readable part says exactly when its tool_use blocks have distinct indices.
   */
  lemma AnthropicUpstreamToOpenAIClient(codec: Codec, h: O.Header, body: string, msg: string)
    ensures var es := EventsOf(codec, S.Payloads(S.ScanLines(body).lines)).0;
      var (evs, failed) := X.ReadBody(codec, body);
      var read := O.ReadAll(O.Close(O.AfterAll(O.Start(h), evs), failed, msg).out);
      !read.failed && (Assemble(read.events) == Meaning(es) <==> DistinctBlocks(Live(es)))
  {
    hide O.ReadAll, O.Close, O.AfterAll, Assemble, RunEvents, EventsOf, S.ScanLines;
    var payloads := S.Payloads(S.ScanLines(body).lines);
    PayloadsHeard(codec, payloads);
    EventsToClient(h, EventsOf(codec, payloads).0, X.ReadBody(codec, body).1, msg);
  }
}
