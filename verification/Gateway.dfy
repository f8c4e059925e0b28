/**
 From the text of an upstream's answer to what the client reads: both upstream protocols, all three client protocols,
 through routing, parser, handler and writer.
 */
module Gateway {
  import opened Wrappers
  import opened Json
  import opened Ir
  import F = Failover
  import H = Handler
  import N = OpenAIStream
  import O = OpenAIWriter
  import A = AnthropicWriter
  import R = AnthropicRoundTrip
  import P = ResponsesWriter
  import C = CrossProtocol
  import S = Sse
  import X = AnthropicSse
  import T = AnthropicToOpenAI
  import K = Keys
  import L = OpenAIWire

  /** The client has read this transcript, in the terms of its protocol. */
  ghost predicate ClientReads(out: H.Output, t: Transcript) {
    match out
    case ChatOutput(o) => !O.ReadAll(o.out).failed && Assemble(O.ReadAll(o.out).events) == t
    case MessagesOutput(a) => !R.ReadFrames(a.out).failed && C.SameMeaning(t, Assemble(R.ReadFrames(a.out).events))
    case ResponsesOutput(p) => P.ReadsAs(p.out, t)
  }

  lemma {:induction false} WrittenAll(entry: H.Protocol, id: string, model: string, evs: seq<StreamEvent>)
    ensures H.AfterAll(H.Start(entry, id, model), evs) ==
      match entry
      case OpenAI => H.ChatOutput(O.AfterAll(O.Start(O.Header(id, model, 0)), evs))
      case Anthropic => H.MessagesOutput(A.AfterAll(A.Start(id, model), evs))
      case Responses => H.ResponsesOutput(P.AfterAll(P.START, evs))
  {
    hide O.AfterEvent, A.AfterEvent, P.AfterEvent;
    if |evs| == 0 {
    } else {
      WrittenAll(entry, id, model, evs[..|evs| - 1]);
    }
  }

  /**
   The stream that the handler finishes for these events. For an OpenAI client the events are those it can tell apart:
   reading back what was written gives them.
   */
  lemma FinishedStream(
    entry: H.Protocol, id: string, model: string, evs: seq<StreamEvent>, ending: F.Ending, t: Transcript)
    requires ending.error.None? && Assemble(Complete(evs)) == t
    requires entry == H.OpenAI ==>
      var read := O.ReadAll(O.AfterFinish(O.AfterAll(O.Start(O.Header(id, model, 0)), evs)).out);
      !read.failed && Assemble(read.events) == t
    ensures ClientReads(H.Handled(entry, id, model, evs, ending).out, t)
  {
    WrittenAll(entry, id, model, evs);
    hide O.AfterAll, A.AfterAll, P.AfterAll, O.ReadAll, R.ReadFrames, Assemble, Complete, C.SameMeaning, P.ReadsAs,
      O.AfterFinish, A.AfterFinish, P.AfterFinish, H.AfterAll;
    match entry
    case OpenAI =>
    case Anthropic => C.AnthropicClientMeaning(id, model, evs);
    case Responses => P.FinishedReads(evs);
  }

  // ---------- An OpenAI upstream ----------

  /** The items before the first end marker. */
  function BeforeEnd(items: seq<N.Item>): seq<N.Item> {
    if |items| == 0 || items[0].EndItem? then [] else [items[0]] + BeforeEnd(items[1..])
  }

  lemma {:induction false} BeforeEndSplit(items: seq<N.Item>)
    ensures C.NoEnd(BeforeEnd(items)) && BeforeEnd(items) <= items
    ensures N.EndItem !in items ==> BeforeEnd(items) == items
    ensures N.EndItem in items ==>
      var n := |BeforeEnd(items)|; n < |items| && items[n] == N.EndItem
  {
    if |items| == 0 {
    } else {
      BeforeEndSplit(items[1..]);
      assert items == [items[0]] + items[1..];
    }
  }

  /**
   What the readable part of a body says: its items up to the end marker; without a marker an empty done closes it.
   */
  function OpenAIMeaning(items: seq<N.Item>): Transcript {
    var said := C.Meaning(BeforeEnd(items));
    if N.EndItem in items then said else said.(end := Some(Done("", None)))
  }

  lemma OpenAIEventsMean(items: seq<N.Item>)
    ensures Assemble(Complete(N.Run(N.INIT, items).1)) == OpenAIMeaning(items)
  {
    BeforeEndSplit(items);
    var before, n := BeforeEnd(items), |BeforeEnd(items)|;
    hide N.Run, Assemble, BeforeEnd, Cut, HasDone, C.TextOf, C.FragmentsOf, C.CallsOf, C.FinishOf, C.UsageOf;
    if N.EndItem in items {
      var head, tail := before + [N.EndItem], items[n + 1..];
      assert items == head + tail;
      C.EndedRun(before);
      N.RunConcat(N.INIT, head, tail);
      var evs := N.Run(N.INIT, head).1;
      O.CutSnoc(N.Run(N.INIT, before).1, evs[|evs| - 1]);
      O.CutConcat(evs, N.Run(N.Run(N.INIT, head).0, tail).1);
    } else {
      C.EndedRun(before);
      var evs := N.Run(N.INIT, before).1;
      Unended(evs, N.Run(N.INIT, before + [N.EndItem]).1[|evs|]);
      AssembleSnoc(evs, Done("", None));
    }
  }

  lemma Unended(evs: seq<StreamEvent>, done: StreamEvent)
    requires !HasDone(evs) && done.Done?
    ensures Assemble(evs).end.None? && Assemble(evs + [done]) == Assemble(evs).(end := Some(done))
    ensures Complete(evs) == evs + [Done("", None)]
  {
    P.NotEnded(evs);
    AssembleSnoc(evs, done);
  }

  // ---------- An OpenAI body, payload by payload ----------

  predicate IsChunk(codec: Codec, payload: string) {
    payload != "[DONE]" && codec.dec(payload).Some? && L.ChunkOk(codec.dec(payload).value)
  }

  /** The chunks before the first payload that is none. */
  function Chunks(codec: Codec, payloads: seq<string>): (r: seq<Json>)
    ensures |r| <= |payloads|
  {
    if |payloads| == 0 || !IsChunk(codec, payloads[0]) then [] else
    [codec.dec(payloads[0]).value] + Chunks(codec, payloads[1..])
  }

  /** What the payloads say: their chunks; an end marker right after these ends the message, anything else cuts it. */
  function BodySays(codec: Codec, payloads: seq<string>): Transcript {
    var chunks := Chunks(codec, payloads);
    if |chunks| < |payloads| && payloads[|chunks|] == "[DONE]" then L.Said(chunks)
    else L.Said(chunks).(end := Some(Done("", None)))
  }

  lemma {:induction false} ChunksRead(codec: Codec, payloads: seq<string>)
    ensures var chunks := Chunks(codec, payloads);
      var n := |chunks|;
      && (forall c :: c in chunks ==> L.ChunkOk(c))
      && (n < |payloads| ==> !IsChunk(codec, payloads[n]))
      && S.DatasOf(codec, payloads[..n]) == Map(chunks, L.ToData)
  {
    if |payloads| == 0 || !IsChunk(codec, payloads[0]) {
      assert payloads[..0] == [];
      assert S.DatasOf(codec, []) == [] && Map([], L.ToData) == [];
    } else {
      ChunksRead(codec, payloads[1..]);
      hide L.ChunkOk;
      var chunks := Chunks(codec, payloads[1..]);
      var n := |chunks|;
      assert payloads[..n + 1] == [payloads[0]] + payloads[1..][..n];
      S.DatasAppend(codec, [payloads[0]], payloads[1..][..n]);
      assert S.DatasOf(codec, [payloads[0]]) == [N.Doc(codec.dec(payloads[0]).value)];
      assert Chunks(codec, payloads) == [codec.dec(payloads[0]).value] + chunks;
      assert Map([codec.dec(payloads[0]).value] + chunks, L.ToData) ==
        [N.Doc(codec.dec(payloads[0]).value)] + Map(chunks, L.ToData);
    }
  }

  /** More lines never take back what was read, and add nothing after a failure. */
  lemma {:induction false} GoodGrows(a: seq<N.Data>, b: seq<N.Data>)
    ensures O.GoodItems(a) <= O.GoodItems(a + b)
    ensures O.ReadAll(a).failed ==> O.ReadAll(a + b).failed && O.GoodItems(a + b) == O.GoodItems(a)
    decreases |b|
  {
    if |b| == 0 {
      assert a + b == a;
    } else {
      GoodGrows(a, b[..|b| - 1]);
      assert (a + b)[..|a + b| - 1] == a + b[..|b| - 1];
    }
  }

  lemma BeforeFirstEnd(before: seq<N.Item>, items: seq<N.Item>)
    requires C.NoEnd(before) && before + [N.EndItem] <= items
    ensures OpenAIMeaning(items) == C.Meaning(before)
  {
    hide C.Meaning;
    BeforeEndSplit(items);
    assert items[|before|] == N.EndItem;
    assert forall k :: 0 <= k < |before| ==> before[k] in before && items[k] == before[k];
    assert forall k :: 0 <= k < |BeforeEnd(items)| ==> BeforeEnd(items)[k] in BeforeEnd(items);
    assert BeforeEnd(items) == before;
  }

  /** The chunks of the payloads as they are read. */
  lemma ReadChunks(codec: Codec, payloads: seq<string>)
    ensures var chunks := Chunks(codec, payloads);
      var before := S.DatasOf(codec, payloads[..|chunks|]);
      && !O.ReadAll(before).failed && C.NoEnd(O.GoodItems(before))
      && C.Meaning(O.GoodItems(before)) == L.Said(chunks)
  {
    var chunks := Chunks(codec, payloads);
    var before := S.DatasOf(codec, payloads[..|chunks|]);
    ChunksRead(codec, payloads);
    L.ChunksSay(chunks);
    C.ReadableReads(before);
    C.ChunksNoEnd(before);
    hide O.ReadAll, O.GoodItems, S.DatasOf, Chunks, C.ItemsOf, L.ChunkOk, N.DataItems, C.TextOf, C.FragmentsOf,
      C.FinishOf, C.UsageOf, C.CallsOf, L.UsageSaid, L.AllChoices, L.TextSaid, L.ToolsSaid, L.FinishSaid;
  }

  /** The reader's items say what the payloads say. */
  lemma BodyMeaning(codec: Codec, payloads: seq<string>)
    ensures OpenAIMeaning(O.GoodItems(S.DatasOf(codec, payloads))) == BodySays(codec, payloads)
  {
    hide C.Meaning, L.Said, OpenAIMeaning, O.ReadAll, O.GoodItems, S.DatasOf, Chunks, L.ChunkOk, N.DataItems,
      IsChunk, S.DataOf, C.NoEnd;
    var n := |Chunks(codec, payloads)|;
    var before := S.DatasOf(codec, payloads[..n]);
    ReadChunks(codec, payloads);
    ChunksRead(codec, payloads);
    if n == |payloads| {
      assert payloads[..n] == payloads;
      NoEndMeans(O.GoodItems(before));
    } else {
      StopsHere(codec, payloads, n);
    }
  }

  /** What follows the chunks read so far: the end marker, or a payload that is no chunk. */
  lemma StopsHere(codec: Codec, payloads: seq<string>, n: nat)
    requires n < |payloads| && !IsChunk(codec, payloads[n])
    requires var before := S.DatasOf(codec, payloads[..n]); !O.ReadAll(before).failed && C.NoEnd(O.GoodItems(before))
    ensures var said := C.Meaning(O.GoodItems(S.DatasOf(codec, payloads[..n])));
      OpenAIMeaning(O.GoodItems(S.DatasOf(codec, payloads))) ==
        if payloads[n] == "[DONE]" then said else said.(end := Some(Done("", None)))
  {
    hide C.Meaning, OpenAIMeaning, O.ReadAll, O.GoodItems, S.DatasOf, N.DataItems, IsChunk, S.DataOf, C.NoEnd;
    var before, d := S.DatasOf(codec, payloads[..n]), S.DataOf(codec, payloads[n]);
    var rest := S.DatasOf(codec, payloads[n + 1..]);
    assert payloads == (payloads[..n] + [payloads[n]]) + payloads[n + 1..];
    S.DatasAppend(codec, payloads[..n] + [payloads[n]], payloads[n + 1..]);
    S.DatasAppend(codec, payloads[..n], [payloads[n]]);
    OneData(codec, payloads[n]);
    assert S.DatasOf(codec, payloads) == (before + [d]) + rest;
    GoodGrows(before + [d], rest);
    StopsAt(before, d);
    if payloads[n] == "[DONE]" {
      BeforeFirstEnd(O.GoodItems(before), O.GoodItems(S.DatasOf(codec, payloads)));
    } else {
      ChunkOrNot(codec, payloads[n]);
      NoEndMeans(O.GoodItems(before));
    }
  }

  /** Reading an OpenAI body fails exactly at a payload that is neither a chunk nor the end marker. */
  lemma {:induction false} BodyFails(codec: Codec, payloads: seq<string>)
    ensures O.ReadAll(S.DatasOf(codec, payloads)).failed <==>
      exists p :: p in payloads && p != "[DONE]" && !IsChunk(codec, p)
  {
    hide S.DataOf, IsChunk, N.DataItems, L.ChunkOk;
    if |payloads| == 0 {
      assert S.DatasOf(codec, payloads) == [];
    } else {
      var init, p := payloads[..|payloads| - 1], payloads[|payloads| - 1];
      BodyFails(codec, init);
      assert payloads == init + [p];
      S.DatasAppend(codec, init, [p]);
      OneData(codec, p);
      GoodGrows(S.DatasOf(codec, init), [S.DataOf(codec, p)]);
      if !O.ReadAll(S.DatasOf(codec, init)).failed {
        StopsAt(S.DatasOf(codec, init), S.DataOf(codec, p));
      }
      if p != "[DONE]" {
        ChunkOrNot(codec, p);
      }
      hide O.ReadAll, S.DatasOf;
      assert forall x :: x in payloads <==> x in init || x == p;
    }
  }

  lemma ChunkOrNot(codec: Codec, payload: string)
    requires payload != "[DONE]"
    ensures N.DataItems(S.DataOf(codec, payload)).Ok? <==> IsChunk(codec, payload)
  {
    if codec.dec(payload).Some? {
      L.DocItems(codec.dec(payload).value);
    }
    hide L.ChunkOk;
  }

  lemma OneData(codec: Codec, payload: string)
    ensures S.DatasOf(codec, [payload]) == [S.DataOf(codec, payload)]
    ensures payload == "[DONE]" ==> N.DataItems(S.DataOf(codec, payload)) == Ok([N.EndItem])
  {
  }

  /** Reading stops at a line that cannot be decoded and goes on after any other. */
  lemma StopsAt(before: seq<N.Data>, d: N.Data)
    requires !O.ReadAll(before).failed
    ensures N.DataItems(d).Err? ==>
      O.ReadAll(before + [d]).failed && O.GoodItems(before + [d]) == O.GoodItems(before)
    ensures N.DataItems(d).Ok? ==>
      !O.ReadAll(before + [d]).failed && O.GoodItems(before + [d]) == O.GoodItems(before) + N.DataItems(d).value
  {
    assert (before + [d])[..|before|] == before;
  }

  lemma NoEndMeans(items: seq<N.Item>)
    requires C.NoEnd(items)
    ensures OpenAIMeaning(items) == C.Meaning(items).(end := Some(Done("", None)))
  {
    BeforeEndSplit(items);
  }

  // ---------- Whole runs ----------

  /** The last call of the run answered with these events. */
  ghost predicate LastCallSays(w: F.World, run: F.StreamRun, evs: seq<StreamEvent>) {
    && run.attempts != []
    && var m := |run.attempts| - 1;
    && run.attempts[m].selection.Picked?
    && w.reply(m, run.attempts[m].route, run.attempts[m].selection.key).events == evs
  }

  /** A successful run hands over everything its last call said. */
  lemma SuccessHandsOverAll(plan: F.Plan, w: F.World, sink: F.Sink, pool: K.Pool, evs: seq<StreamEvent>)
    requires F.Sound(plan)
    requires var run := F.ChatStream(plan, w, sink, pool); run.ending.error.None? && LastCallSays(w, run, evs)
    ensures F.ChatStream(plan, w, sink, pool).handed == evs
  {
    F.EmissionHasOneSource(plan, w, sink, pool);
    F.StreamAttemptsAndEnding(plan, w, sink, pool);
    hide F.ChatStream;
  }

  /**
   An OpenAI upstream: when a streamed request succeeds and its last call answered with this body, the client of each
   protocol reads what the body's chunks say, up to the end marker or the first payload that is no chunk.
   */
  lemma FromOpenAIUpstream(
    plan: F.Plan, w: F.World, pool: K.Pool, entry: H.Protocol, id: string, model: string, codec: Codec, body: string)
    requires F.Sound(plan)
    requires var run := F.ChatStream(plan, w, H.Acceptance(entry, id, model), pool);
      run.ending.error.None? && LastCallSays(w, run, S.ReadBody(codec, body).0)
    ensures var run := F.ChatStream(plan, w, H.Acceptance(entry, id, model), pool);
      var said := BodySays(codec, S.Payloads(S.ScanLines(body).lines));
      ClientReads(H.Handled(entry, id, model, run.handed, run.ending).out, said)
  {
    BodyMeaning(codec, S.Payloads(S.ScanLines(body).lines));
    var datas := S.DatasOf(codec, S.Payloads(S.ScanLines(body).lines));
    var evs := O.ReadAll(datas).events;
    assert S.ReadBody(codec, body).0 == evs;
    hide F.ChatStream, H.Acceptance, H.Handled, ClientReads, S.ScanLines, S.Payloads, S.DatasOf, O.ReadAll,
        N.Run, Assemble, BodySays,
      OpenAIMeaning, O.GoodItems, O.AfterAll, O.AfterFinish, Complete;
    SuccessHandsOverAll(plan, w, H.Acceptance(entry, id, model), pool, evs);
    O.ReadAllIsRun(datas);
    OpenAIEventsMean(O.GoodItems(datas));
    O.Retraction(O.Header(id, model, 0), datas, false, "");
    FinishedStream(entry, id, model, evs, F.ChatStream(plan, w, H.Acceptance(entry, id, model), pool).ending,
                   OpenAIMeaning(O.GoodItems(datas)));
  }

  /**
   An Anthropic upstream: the same, for a body whose tool_use blocks have distinct indices.
   */
  lemma FromAnthropicUpstream(
    plan: F.Plan, w: F.World, pool: K.Pool, entry: H.Protocol, id: string, model: string, codec: Codec, body: string)
    requires F.Sound(plan)
    requires T.DistinctBlocks(T.Live(T.EventsOf(codec, S.Payloads(S.ScanLines(body).lines)).0))
    requires var run := F.ChatStream(plan, w, H.Acceptance(entry, id, model), pool);
      run.ending.error.None? && LastCallSays(w, run, X.ReadBody(codec, body).0)
    ensures var run := F.ChatStream(plan, w, H.Acceptance(entry, id, model), pool);
      var es := T.EventsOf(codec, S.Payloads(S.ScanLines(body).lines)).0;
      ClientReads(H.Handled(entry, id, model, run.handed, run.ending).out, T.Meaning(es))
  {
    var payloads := S.Payloads(S.ScanLines(body).lines);
    var es := T.EventsOf(codec, payloads).0;
    var evs := X.ReadPayloads(codec, payloads).events;
    assert X.ReadBody(codec, body).0 == evs;
    hide F.ChatStream, H.Acceptance, H.Handled, ClientReads, S.ScanLines, S.Payloads, O.ReadAll, Assemble,
        T.EventsOf, T.Live,
      T.Meaning, T.RunEvents, O.AfterAll, O.AfterFinish, Complete, T.DistinctBlocks, X.ReadPayloads;
    SuccessHandsOverAll(plan, w, H.Acceptance(entry, id, model), pool, evs);
    T.PayloadsHeard(codec, payloads);
    T.EventsMean(es);
    T.EventsToClient(O.Header(id, model, 0), es, false, "");
    FinishedStream(entry, id, model, evs, F.ChatStream(plan, w, H.Acceptance(entry, id, model), pool).ending,
        T.Meaning(es));
  }
}
