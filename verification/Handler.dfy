/**
 The streaming handler: HTTP status, terminal marker and log record of every streamed request, for each of the
 three client protocols.
 */
module Handler {
  import opened Wrappers
  import opened Json
  import opened JsonView
  import opened Ir
  import F = Failover
  import R = Router
  import K = Keys
  import O = OpenAIWriter
  import S = OpenAIStream
  import A = AnthropicWriter
  import P = ResponsesWriter

  datatype Protocol = OpenAI | Anthropic | Responses

  // ---------- The three writers as one ----------

  datatype Output = ChatOutput(o: O.Writer) | MessagesOutput(a: A.Writer) | ResponsesOutput(p: P.Writer)

  function Start(entry: Protocol, id: string, model: string): Output {
    match entry
    case OpenAI => ChatOutput(O.Start(O.Header(id, model, 0)))
    case Anthropic => MessagesOutput(A.Start(id, model))
    case Responses => ResponsesOutput(P.START)
  }

  function AfterEvent(out: Output, ev: StreamEvent): Output {
    match out
    case ChatOutput(o) => ChatOutput(O.AfterEvent(o, ev))
    case MessagesOutput(a) => MessagesOutput(A.AfterEvent(a, ev))
    case ResponsesOutput(p) => ResponsesOutput(P.AfterEvent(p, ev))
  }

  /** Whether WriteEvent returns an error. */
  predicate Rejects(out: Output, ev: StreamEvent) {
    match out
    case ChatOutput(_) => false
    case MessagesOutput(a) => A.Rejects(a, ev)
    case ResponsesOutput(p) => P.Rejects(p, ev)
  }

  function AfterError(out: Output, msg: string): Output {
    match out
    case ChatOutput(o) => ChatOutput(O.AfterError(o, msg))
    case MessagesOutput(a) => MessagesOutput(A.AfterError(a, msg))
    case ResponsesOutput(p) => ResponsesOutput(P.AfterError(p, msg))
  }

  function AfterFinish(out: Output): Output {
    match out
    case ChatOutput(o) => ChatOutput(O.AfterFinish(o))
    case MessagesOutput(a) => MessagesOutput(A.AfterFinish(a))
    case ResponsesOutput(p) => ResponsesOutput(P.AfterFinish(p))
  }

  function AfterAll(out: Output, evs: seq<StreamEvent>): Output {
    if |evs| == 0 then out else AfterEvent(AfterAll(out, evs[..|evs| - 1]), evs[|evs| - 1])
  }

  /** The events the router may hand over: the writer refuses the last of them or none. */
  function Acceptance(entry: Protocol, id: string, model: string): F.Sink {
    (handed: seq<StreamEvent>) =>
      handed == [] || !Rejects(AfterAll(Start(entry, id, model), handed[..|handed| - 1]), handed[|handed| - 1])
  }

  // ---------- Status and log ----------

  datatype Log = Log(channel: int, status: int, promptTokens: int, completionTokens: int)

  /** errorStatus, for the log. */
  function ErrorStatus(e: F.Error): int {
    match e
    case ModelNotFound => 404
    case NotImplemented(_) => 501
    case Failed(UpstreamError(status, _, _)) => if status > 0 then status else 502
    case _ => 500
  }

  function ErrorText(e: F.Error): string {
    match e
    case Failed(UpstreamError(_, _, message)) => message
    case Failed(LocalError(message)) => message
    case _ => "routing failed"
  }

  /** The usage of the last done event that carries one. */
  function LastUsage(evs: seq<StreamEvent>): Option<Usage> {
    if |evs| == 0 then None else
    var ev := evs[|evs| - 1];
    if ev.Done? && ev.usage.Some? then ev.usage else LastUsage(evs[..|evs| - 1])
  }

  /** `explicit` lists the statuses given to WriteHeader; `status` is the one on the wire. */
  datatype Exchange = Exchange(status: Option<int>, explicit: seq<int>, logs: seq<Log>, out: Output)

  /** What is done once dispatch has ended. */
  function Settled(out: Output, ending: F.Ending, started: bool, usage: Option<Usage>): Exchange {
    if ending.error.None? then
      Exchange(Some(200), if started then [200] else [],
               [if usage.Some? then Log(ending.channel, 200, usage.value.prompt, usage.value.completion)
                else Log(ending.channel, 200, 0, 0)],
               AfterFinish(out))
    else if started then
      Exchange(Some(200), [200], [Log(ending.channel, 0, 0, 0)], AfterError(out, ErrorText(ending.error.value)))
    else
      var status := ErrorStatus(ending.error.value);
      Exchange(Some(status), [status], [Log(ending.channel, status, 0, 0)], out)
  }

  /** What a streamed request leaves behind, given the events handed over and how dispatch ended. */
  function Handled(entry: Protocol, id: string, model: string, handed: seq<StreamEvent>, ending: F.Ending): Exchange {
    Settled(AfterAll(Start(entry, id, model), handed), ending, handed != [], LastUsage(handed))
  }

  // ---------- The handler ----------

  class ResponseWriter {
    var status: Option<int>
    var explicit: seq<int>

    constructor ()
      ensures status == None && explicit == []
    {
      status, explicit := None, [];
    }

    /** Only the first status counts. */
    method WriteHeader(code: int)
      modifies this
      ensures explicit == old(explicit) + [code]
      ensures status == if old(status).None? then Some(code) else old(status)
    {
      explicit := explicit + [code];
      if status.None? {
        status := Some(code);
      }
    }

    /** A body write; without an earlier WriteHeader it fixes status 200. */
    method Write()
      modifies this`status
      ensures status == if old(status).None? then Some(200) else old(status)
    {
      if status.None? {
        status := Some(200);
      }
    }
  }

  class RequestLog {
    var records: seq<Log>

    constructor ()
      ensures records == []
    {
      records := [];
    }

    method Insert(l: Log)
      modifies this
      ensures records == old(records) + [l]
    {
      records := records + [l];
    }
  }

  /** The interface that the three writers share. */
  datatype StreamWriter =
    | ChatWriter(chat: O.OpenAIChatStreamWriter)
    | MessagesWriter(messages: A.AnthropicStreamWriter)
    | ResponsesWriter(responses: P.ResponsesStreamWriter)
  {
    function Object(): object {
      match this
      case ChatWriter(c) => c
      case MessagesWriter(m) => m
      case ResponsesWriter(r) => r
    }

    ghost function State(): Output
      reads Object()
    {
      match this
      case ChatWriter(c) => ChatOutput(c.State())
      case MessagesWriter(m) => MessagesOutput(m.State())
      case ResponsesWriter(r) => ResponsesOutput(r.State())
    }

    method WriteEvent(ev: StreamEvent) returns (rejected: bool)
      modifies Object()
      ensures State() == AfterEvent(old(State()), ev)
      ensures rejected == Rejects(old(State()), ev)
    {
      rejected := false;
      match this
      case ChatWriter(c) => c.WriteEvent(ev);
      case MessagesWriter(m) => rejected := m.WriteEvent(ev);
      case ResponsesWriter(r) => rejected := r.WriteEvent(ev);
    }

    method WriteError(msg: string)
      modifies Object()
      ensures State() == AfterError(old(State()), msg)
    {
      match this
      case ChatWriter(c) => c.WriteError(msg);
      case MessagesWriter(m) => m.WriteError(msg);
      case ResponsesWriter(r) => r.WriteError(msg);
    }

    method Finish()
      modifies Object()
      ensures State() == AfterFinish(old(State()))
    {
      match this
      case ChatWriter(c) => c.Finish();
      case MessagesWriter(m) => m.Finish();
      case ResponsesWriter(r) => r.Finish();
    }
  }

  method NewStreamWriter(entry: Protocol, id: string, model: string) returns (sw: StreamWriter)
    ensures fresh(sw.Object()) && sw.State() == Start(entry, id, model)
  {
    match entry
    case OpenAI =>
      var c := new O.OpenAIChatStreamWriter(id, model, 0);
      sw := ChatWriter(c);
    case Anthropic =>
      var m := new A.AnthropicStreamWriter(id, model);
      sw := MessagesWriter(m);
    case Responses =>
      var r := new P.ResponsesStreamWriter();
      sw := ResponsesWriter(r);
  }

  /** How ChatStream ends and what it hands over, route lookup included. */
  function Dispatched(c: R.Config, rr: map<string, nat>, r: R.Request, w: F.World, sink: F.Sink, pool: K.Pool):
    (F.Ending, seq<StreamEvent>)
  {
    R.ResolvedIsSound(c, rr, r);
    match R.Resolve(c, rr, r)
    case Unresolved(e) => (F.Ending(0, Some(e)), [])
    case Resolved(plan) =>
      var run := F.ChatStream(plan, w, sink, pool);
      (run.ending, run.handed)
  }

  /** The status the error response carries: writeRouteError. */
  method WriteRouteError(response: ResponseWriter, e: F.Error)
    modifies response
    ensures response.explicit == old(response.explicit) + [ErrorStatus(e)]
    ensures response.status == if old(response.status).None? then Some(ErrorStatus(e)) else old(response.status)
  {
    if e.ModelNotFound? {
      response.WriteHeader(404);
    } else if e.NotImplemented? {
      response.WriteHeader(501);
    } else if e.Failed? && e.outcome.UpstreamError? {
      var status := e.outcome.status;
      if status <= 0 {
        status := 502;
      }
      response.WriteHeader(status);
    } else {
      response.WriteHeader(500);
    }
    response.Write();
  }

  /** The callback, for each event handed over: the status before the first, the usage of a done, then the writer. */
  method Receive(sw: StreamWriter, response: ResponseWriter, handed: seq<StreamEvent>, ghost start: Output)
    returns (started: bool, usage: Option<Usage>)
    requires sw.State() == start && response.status == None && response.explicit == []
    requires sw.Object() != response
    modifies sw.Object(), response
    ensures sw.State() == AfterAll(start, handed)
    ensures usage == LastUsage(handed) && started == (handed != [])
    ensures response.explicit == (if started then [200] else [])
      && response.status == (if started then Some(200) else None)
  {
    hide AfterEvent, Rejects;
    started, usage := false, None;
    for i := 0 to |handed|
      invariant sw.State() == AfterAll(start, handed[..i])
      invariant usage == LastUsage(handed[..i])
      invariant started == (i > 0)
      invariant response.explicit == (if started then [200] else [])
        && response.status == (if started then Some(200) else None)
    {
      assert handed[..i + 1][..i] == handed[..i];
      var ev := handed[i];
      if !started {
        started := true;
        response.WriteHeader(200);
      }
      if ev.Done? && ev.usage.Some? {
        usage := ev.usage;
      }
      var rejected := sw.WriteEvent(ev);
      response.Write();
    }
    assert handed[..|handed|] == handed;
  }

  /** What follows the dispatch. */
  method Settle(
    sw: StreamWriter, response: ResponseWriter, log: RequestLog, ending: F.Ending, started: bool, usage: Option<Usage>)
    requires sw.Object() != response && sw.Object() != log
    requires response.explicit == (if started then [200] else [])
      && response.status == (if started then Some(200) else None)
    modifies sw.Object(), response, log
    ensures var x := Settled(old(sw.State()), ending, started, usage);
      && sw.State() == x.out && log.records == old(log.records) + x.logs
      && response.status == x.status && response.explicit == x.explicit
  {
    hide AfterError, AfterFinish, ErrorStatus, ErrorText;
    if ending.error.Some? {
      var e := ending.error.value;
      if !started {
        log.Insert(Log(ending.channel, ErrorStatus(e), 0, 0));
        WriteRouteError(response, e);
      } else {
        sw.WriteError(ErrorText(e));
        response.Write();
        log.Insert(Log(ending.channel, 0, 0, 0));
      }
    } else {
      sw.Finish();
      response.Write();
      var pt, ct := 0, 0;
      if usage.Some? {
        pt, ct := usage.value.prompt, usage.value.completion;
      }
      log.Insert(Log(ending.channel, 200, pt, ct));
    }
  }

  /**
   handleStream. The writer is fed by nothing but the callback, so feeding it after the call what was handed over
   during the call leaves it in the same state.
   */
  method HandleStream(
    router: R.Router, response: ResponseWriter, log: RequestLog, entry: Protocol, id: string, r: R.Request, w: F.World)
    returns (ghost out: Output)
    requires response.status == None && response.explicit == []
    modifies router`rr, router.manager, response, log
    ensures var (ending, handed) := Dispatched(router.config, old(router.rr), r, w, Acceptance(entry, id, r.model),
                                               old(router.manager.State()));
      var x := Handled(entry, id, r.model, handed, ending);
      && response.status == x.status && response.explicit == x.explicit && out == x.out
      && log.records == old(log.records) + x.logs
  {
    hide AfterEvent, Rejects, Start, Settled, AfterAll, LastUsage;
    var sink := Acceptance(entry, id, r.model);
    var ending, handed := router.ChatStream(r, w, sink);
    assert (ending, handed) == Dispatched(router.config, old(router.rr), r, w, sink, old(router.manager.State()));
    var sw := NewStreamWriter(entry, id, r.model);
    var started, usage := Receive(sw, response, handed, Start(entry, id, r.model));
    Settle(sw, response, log, ending, started, usage);
    out := sw.State();
  }

  // ---------- Exactly one end ----------

  /** The last element and no other is a terminal one. */
  ghost predicate EndsOnce<T(!new)>(s: seq<T>, terminal: T -> bool) {
    s != [] && terminal(s[|s| - 1]) && forall i :: 0 <= i < |s| - 1 ==> !terminal(s[i])
  }

  predicate OpenAIEnd(d: S.Data) {
    d.DoneMarker?
  }

  predicate AnthropicEnd(f: A.Frame) {
    f.MessageStop? || f.ErrorFrame?
  }

  predicate ResponsesEnd(f: P.Frame) {
    f.Completed? || f.ErrorFrame?
  }

  ghost predicate Ended(out: Output) {
    match out
    case ChatOutput(o) => o.done && EndsOnce(o.out, OpenAIEnd)
    case MessagesOutput(a) => a.done && EndsOnce(a.out, AnthropicEnd)
    case ResponsesOutput(p) => p.done && EndsOnce(p.out, ResponsesEnd)
  }

  /** No terminal marker yet. */
  ghost predicate Running(out: Output) {
    match out
    case ChatOutput(o) => !o.done && forall i :: 0 <= i < |o.out| ==> !OpenAIEnd(o.out[i])
    case MessagesOutput(a) => !a.done && forall i :: 0 <= i < |a.out| ==> !AnthropicEnd(a.out[i])
    case ResponsesOutput(p) => !p.done && forall i :: 0 <= i < |p.out| ==> !ResponsesEnd(p.out[i])
  }

  /** The stream says that something went wrong. */
  predicate ReportsError(out: Output) {
    match out
    case ChatOutput(o) => exists i :: 0 <= i < |o.out| && IsErrorChunk(o.out[i])
    case MessagesOutput(a) => exists i :: 0 <= i < |a.out| && a.out[i].ErrorFrame?
    case ResponsesOutput(p) => exists i :: 0 <= i < |p.out| && p.out[i].ErrorFrame?
  }

  predicate IsErrorChunk(d: S.Data) {
    d.Doc? && d.json.Obj? && "error" in d.json.fields
  }

  predicate Clean(out: Output) {
    !ReportsError(out)
  }

  lemma EventDataEnds(h: O.Header, ev: StreamEvent)
    ensures var d := O.EventData(h, ev);
      && (forall i :: 0 <= i < |d| ==> !IsErrorChunk(d[i]))
      && (forall i :: 0 <= i < |d| - 1 ==> !OpenAIEnd(d[i]))
      && (ev.Done? ==> d != [] && OpenAIEnd(d[|d| - 1]))
      && (!ev.Done? && d != [] ==> !OpenAIEnd(d[|d| - 1]))
  {
  }

  lemma ErrorChunk(h: O.Header, msg: string)
    ensures IsErrorChunk(O.Stamp(h, O.ErrorPayload(msg)))
  {
    assert "error" in O.ErrorPayload(msg);
  }

  lemma ChatStep(o: O.Writer, ev: StreamEvent)
    requires Running(ChatOutput(o)) && Clean(ChatOutput(o))
    ensures var next := ChatOutput(O.AfterEvent(o, ev));
      Clean(next) && if ev.Done? then Ended(next) else Running(next)
  {
    hide O.EventData;
    EventDataEnds(o.header, ev);
    var d := O.EventData(o.header, ev);
    var next := O.AfterEvent(o, ev);
    assert forall i :: 0 <= i < |o.out| ==> next.out[i] == o.out[i];
    assert forall i :: |o.out| <= i < |next.out| ==> next.out[i] == d[i - |o.out|];
  }

  /** In a grammatical stream an end marker is last and comes once. */
  lemma {:induction false} LegalEnds(fs: seq<A.Frame>)
    requires A.Legal(fs)
    ensures if A.Summarise(fs).phase == A.Ended then EndsOnce(fs, AnthropicEnd)
      else forall i :: 0 <= i < |fs| ==> !AnthropicEnd(fs[i])
  {
    if |fs| == 0 {
    } else {
      var init := fs[..|fs| - 1];
      LegalEnds(init);
      assert forall i :: 0 <= i < |init| ==> fs[i] == init[i];
    }
  }

  /** An Anthropic stream so far: grammatical, and ended properly exactly when `ended` says so. */
  ghost predicate GoodMessages(a: A.Writer, ended: bool) {
    A.Inv(a) && (a.done <==> ended) && (ended ==> a.out != [] && a.out[|a.out| - 1].MessageStop?)
  }

  lemma GoodMessagesEnd(a: A.Writer, ended: bool)
    requires GoodMessages(a, ended)
    ensures var out := MessagesOutput(a); Clean(out) && if ended then Ended(out) else Running(out)
  {
    hide A.Summarise, A.Legal;
    LegalEnds(a.out);
  }

  lemma MessagesStep(a: A.Writer, ev: StreamEvent)
    requires GoodMessages(a, false)
    ensures GoodMessages(A.AfterEvent(a, ev), ev.Done?)
  {
    A.EventInv(a, ev);
    hide A.Inv;
  }

  ghost predicate GoodRun(out: Output, ended: bool) {
    match out
    case ChatOutput(o) => Clean(out) && if ended then Ended(out) else Running(out)
    case MessagesOutput(a) => GoodMessages(a, ended)
    case ResponsesOutput(p) => if ended then p.done && P.EndsInSnapshot(p.out) else P.Inv(p)
  }

  lemma GoodRunEnds(out: Output, ended: bool)
    requires GoodRun(out, ended)
    ensures Clean(out) && if ended then Ended(out) else Running(out)
  {
    match out
    case ChatOutput(_) =>
    case MessagesOutput(a) => GoodMessagesEnd(a, ended);
    case ResponsesOutput(p) =>
      if ended {
        SnapshotEnds(p.out);
      }
  }

  lemma SnapshotEnds(fs: seq<P.Frame>)
    requires P.EndsInSnapshot(fs)
    ensures EndsOnce(fs, ResponsesEnd) && forall i :: 0 <= i < |fs| ==> !fs[i].ErrorFrame?
  {
    var init := fs[..|fs| - 1];
    assert forall i :: 0 <= i < |init| ==> fs[i] == init[i] && !P.Terminal(init[i]);
  }

  /** One event keeps a good run going, or ends it properly if it is a done. */
  lemma GoodStep(out: Output, ev: StreamEvent)
    requires GoodRun(out, false)
    ensures GoodRun(AfterEvent(out, ev), ev.Done?)
  {
    hide Clean, Running, Ended, GoodMessages, P.Inv;
    match out
    case ChatOutput(o) => ChatStep(o, ev);
    case MessagesOutput(a) => MessagesStep(a, ev);
    case ResponsesOutput(p) => ResponsesStep(p, ev);
  }

  lemma ResponsesStep(p: P.Writer, ev: StreamEvent)
    requires P.Inv(p)
    ensures GoodRun(ResponsesOutput(P.AfterEvent(p, ev)), ev.Done?)
  {
    if ev.Done? {
      P.ConclusionAgrees(p, ev.usage);
    } else {
      P.EventInv(p, ev);
    }
  }

  lemma LateEvent(out: Output, ev: StreamEvent)
    requires GoodRun(out, true)
    ensures AfterEvent(out, ev) == out
  {
  }

  lemma {:induction false} GoodRuns(entry: Protocol, id: string, model: string, evs: seq<StreamEvent>)
    ensures GoodRun(AfterAll(Start(entry, id, model), evs), HasDone(evs))
  {
    if |evs| == 0 {
      GoodStart(entry, id, model);
    } else {
      hide GoodRun, AfterEvent, Start;
      var init, ev := evs[..|evs| - 1], evs[|evs| - 1];
      assert evs == init + [ev];
      P.HasDoneSnoc(init, ev);
      GoodRuns(entry, id, model, init);
      if HasDone(init) {
        LateEvent(AfterAll(Start(entry, id, model), init), ev);
      } else {
        GoodStep(AfterAll(Start(entry, id, model), init), ev);
      }
    }
  }

  lemma GoodStart(entry: Protocol, id: string, model: string)
    ensures GoodRun(Start(entry, id, model), false)
  {
    A.StartInv(id, model);
  }

  lemma FinishEnds(out: Output, ended: bool)
    requires GoodRun(out, ended)
    ensures Ended(AfterFinish(out)) && Clean(AfterFinish(out))
  {
    GoodRunEnds(out, ended);
    if !ended {
      match out
      case ChatOutput(o) =>
        var next := O.AfterFinish(o);
        assert forall i :: 0 <= i < |o.out| ==> next.out[i] == o.out[i];
      case MessagesOutput(a) =>
        A.FinishInv(a, "", None);
        GoodMessagesEnd(A.AfterFinish(a), true);
      case ResponsesOutput(p) =>
        P.ConclusionAgrees(p, None);
        SnapshotEnds(P.AfterFinish(p).out);
    }
  }

  lemma ErrorEnds(out: Output, ended: bool, msg: string)
    requires GoodRun(out, ended)
    ensures Ended(AfterError(out, msg)) && (ReportsError(AfterError(out, msg)) <==> !ended)
  {
    GoodRunEnds(out, ended);
    if !ended {
      match out
      case ChatOutput(o) =>
        var next := O.AfterError(o, msg);
        ErrorChunk(o.header, msg);
        assert forall i :: 0 <= i < |o.out| ==> next.out[i] == o.out[i];
        assert IsErrorChunk(next.out[|o.out|]);
      case MessagesOutput(a) =>
        var next := A.AfterError(a, msg);
        assert forall i :: 0 <= i < |a.out| ==> next.out[i] == a.out[i];
        assert next.out[|a.out|].ErrorFrame?;
      case ResponsesOutput(p) =>
        var next := P.AfterError(p, msg);
        assert forall i :: 0 <= i < |p.out| ==> next.out[i] == p.out[i];
        assert next.out[|p.out|].ErrorFrame?;
    }
  }

  /** Whether the client's stream has begun: an event arrived, or dispatch succeeded without one. */
  predicate Begun(handed: seq<StreamEvent>, ending: F.Ending) {
    handed != [] || ending.error.None?
  }

  /**
   Whatever is handed over and however dispatch ends: one status, set at most once, and one log record. A stream
   that has begun has status 200 and exactly one terminal marker with nothing after it, and reports an error
   exactly when dispatch failed before any done. A stream that has not begun is empty; status and log agree.
   */
  lemma StreamEndsOnce(entry: Protocol, id: string, model: string, handed: seq<StreamEvent>, ending: F.Ending)
    ensures var x := Handled(entry, id, model, handed, ending);
      && x.status.Some? && |x.logs| == 1
      && (x.explicit == [] || x.explicit == [x.status.value])
      && (Begun(handed, ending) ==>
            && x.status == Some(200) && Ended(x.out)
            && (ReportsError(x.out) <==> ending.error.Some? && !HasDone(handed)))
      && (!Begun(handed, ending) ==>
            x.out == Start(entry, id, model) && Running(x.out) && x.status == Some(x.logs[0].status))
  {
    hide GoodRun, Ended, Running, ReportsError, AfterEvent, AfterFinish, AfterError, Start;
    var out := AfterAll(Start(entry, id, model), handed);
    GoodRuns(entry, id, model, handed);
    GoodRunEnds(out, HasDone(handed));
    FinishEnds(out, HasDone(handed));
    if ending.error.Some? {
      ErrorEnds(out, HasDone(handed), ErrorText(ending.error.value));
    }
  }

  // ---------- Statuses, log records and error texts ----------

  /** The HTTP status of a request that failed before its stream began. */
  predicate FailsWith(e: F.Error, status: int) {
    match e
    case ModelNotFound => status == 404
    case NotImplemented(_) => status == 501
    case Failed(UpstreamError(upstream, _, _)) => status == if upstream > 0 then upstream else 502
    case Failed(_) => status == 500
    case NoUsableKey(_) => status == 500
    case RoutesUnavailable => status == 500
  }

  /** The usage of event k is the last one a done event brings. */
  ghost predicate LastUsed(handed: seq<StreamEvent>, k: nat, usage: Usage) {
    && k < |handed| && handed[k].Done? && handed[k].usage == Some(usage)
    && forall j :: k < j < |handed| && handed[j].Done? ==> handed[j].usage.None?
  }

  ghost predicate NoUsage(handed: seq<StreamEvent>) {
    forall j :: 0 <= j < |handed| && handed[j].Done? ==> handed[j].usage.None?
  }

  ghost predicate Used(handed: seq<StreamEvent>, usage: Usage) {
    exists k: nat :: LastUsed(handed, k, usage)
  }

  lemma {:induction false} LastUsageIs(handed: seq<StreamEvent>)
    ensures match LastUsage(handed) case None => NoUsage(handed) case Some(u) => Used(handed, u)
  {
    if |handed| == 0 {
    } else {
      var n: nat := |handed| - 1;
      LastUsageIs(handed[..n]);
      if handed[n].Done? && handed[n].usage.Some? {
        assert LastUsed(handed, n, handed[n].usage.value);
        assert Used(handed, handed[n].usage.value);
      } else if LastUsage(handed[..n]).Some? {
        var k: nat :| LastUsed(handed[..n], k, LastUsage(handed[..n]).value);
        assert LastUsed(handed, k, LastUsage(handed).value);
      } else {
        assert forall j :: 0 <= j < n ==> handed[j] == handed[..n][j];
      }
    }
  }

  /** The error a stream ends with, in the terms of its protocol. */
  predicate EndsWithError(out: Output, message: string) {
    match out
    case ChatOutput(o) =>
      && |o.out| >= 2 && o.out[|o.out| - 1].DoneMarker? && o.out[|o.out| - 2].Doc?
      && var error := At(o.out[|o.out| - 2].json, "error");
      At(error, "message") == Str(message) && At(error, "type") == Str("upstream_error")
    case MessagesOutput(a) => a.out != [] && a.out[|a.out| - 1] == A.ErrorFrame(message)
    case ResponsesOutput(p) => p.out != [] && p.out[|p.out| - 1] == P.ErrorFrame(message)
  }

  lemma ErrorIsLast(out: Output, ended: bool, msg: string)
    requires GoodRun(out, ended) && !ended
    ensures EndsWithError(AfterError(out, msg), msg)
  {
    GoodRunEnds(out, ended);
    match out
    case ChatOutput(o) =>
      var doc := Obj(O.ErrorPayload(msg));
      assert At(At(doc, "error"), "message") == Str(msg) && At(At(doc, "error"), "type") == Str("upstream_error");
      StampKeepsError(o.header, msg);
    case _ =>
  }

  lemma StampKeepsError(h: O.Header, msg: string)
    ensures At(O.Stamp(h, O.ErrorPayload(msg)).json, "error") == At(Obj(O.ErrorPayload(msg)), "error")
  {
  }

  /**
   The one log record of a streamed request names the channel that dispatch ended on. It has the status of a failure
   before the stream began, 0 for one after, and for a success 200 with the counts of the last usage that came with a
   done. A stream that fails without a done ends in the upstream's message.
   */
  lemma StatusAndLog(entry: Protocol, id: string, model: string, handed: seq<StreamEvent>, ending: F.Ending)
    ensures var x := Handled(entry, id, model, handed, ending);
      && |x.logs| == 1 && x.logs[0].channel == ending.channel
      && var log := x.logs[0];
      match ending.error
      case None =>
        && log.status == 200
        && (NoUsage(handed) ==> log.promptTokens == 0 && log.completionTokens == 0)
        && (NoUsage(handed) || exists u ::
              Used(handed, u) && log.promptTokens == u.prompt && log.completionTokens == u.completion)
      case Some(e) =>
        && log.promptTokens == 0 && log.completionTokens == 0
        && (if handed == [] then FailsWith(e, log.status) && x.status == Some(log.status) else log.status == 0)
        && (handed != [] && !HasDone(handed) ==>
              match e
              case Failed(UpstreamError(_, _, message)) => EndsWithError(x.out, message)
              case Failed(LocalError(message)) => EndsWithError(x.out, message)
              case _ => true)
  {
    hide GoodRun, AfterEvent, AfterFinish, AfterError, Start, EndsWithError;
    LastUsageIs(handed);
    if ending.error.Some? && !HasDone(handed) {
      GoodRuns(entry, id, model, handed);
      ErrorIsLast(AfterAll(Start(entry, id, model), handed), false, ErrorText(ending.error.value));
    }
    if LastUsage(handed).Some? {
      UsedSomewhere(handed, LastUsage(handed).value);
    }
  }

  lemma UsedSomewhere(handed: seq<StreamEvent>, u: Usage)
    requires Used(handed, u)
    ensures !NoUsage(handed)
  {
  }

  // ---------- Refused events ----------

  predicate Refused(sink: F.Sink, events: seq<StreamEvent>, j: nat)
    requires j < |events|
  {
    !sink(events[..j + 1])
  }

  lemma {:induction false} DeliverRefuses(events: seq<StreamEvent>, sink: F.Sink, i: nat)
    requires i <= |events| && forall j :: 0 <= j < i ==> !Refused(sink, events, j)
    ensures var (h, refused) := F.Deliver(events, sink, i);
      && |h| <= |events| && h == events[..|h|]
      && forall j :: 0 <= j < |h| && Refused(sink, events, j) ==> refused && j == |h| - 1
    decreases |events| - i
  {
    if i < |events| && !Refused(sink, events, i) {
      DeliverRefuses(events, sink, i + 1);
    }
  }

  /** Only the last event handed over can have been refused, and then the run ends in an error. */
  ghost predicate RefusalEnds(sink: F.Sink, run: F.StreamRun) {
    forall j :: 0 <= j < |run.handed| && Refused(sink, run.handed, j) ==>
      j == |run.handed| - 1 && run.ending.error.Some?
  }

  lemma TryRefuses(plan: F.Plan, w: F.World, sink: F.Sink, pos: nat, n: nat, pool: K.Pool)
    requires F.Sound(plan) && pos < |F.Sequence(plan)|
    ensures var (p, a, handed) := F.StreamTry(plan, w, sink, pos, n, pool);
      a.route < |plan.routes| && forall q :: RefusalEnds(sink, F.StreamRun([a], q, F.EndingOf(plan, a), handed))
  {
    var (p, a, handed) := F.StreamTry(plan, w, sink, pos, n, pool);
    if a.outcome.Some? {
      var events := w.reply(n, a.route, a.selection.key).events;
      DeliverRefuses(events, sink, 0);
      forall j | 0 <= j < |handed|
        ensures Refused(sink, handed, j) == Refused(sink, events, j)
      {
        assert handed[..j + 1] == events[..j + 1];
      }
    }
  }

  lemma {:induction false} RefusalFrom(plan: F.Plan, w: F.World, sink: F.Sink, pos: nat, n: nat, pool: K.Pool,
      last: F.Ending)
    requires F.Sound(plan)
    ensures RefusalEnds(sink, F.StreamFrom(plan, w, sink, pos, n, pool, last))
    decreases F.MaxAttempts(|plan.routes|) - n
  {
    hide F.StreamTry, F.StreamSettle, F.StreamFrom, F.EndingOf;
    if pos < |F.Sequence(plan)| && n < F.MaxAttempts(|plan.routes|) {
      TryRefuses(plan, w, sink, pos, n, pool);
      F.StreamStep(plan, w, sink, pos, n, pool, last);
      var (p, a, handed) := F.StreamTry(plan, w, sink, pos, n, pool);
      var q := F.StreamSettle(w, n, p, a, handed);
      match F.StreamAfter(a, handed)
      case Stop => assert RefusalEnds(sink, F.StreamRun([a], q, F.EndingOf(plan, a), handed));
      case NextKey => RefusalFrom(plan, w, sink, pos, n + 1, q, F.EndingOf(plan, a));
      case NextChannel => RefusalFrom(plan, w, sink, pos + 1, n + 1, q, F.EndingOf(plan, a));
    } else {
      F.StreamOver(plan, w, sink, pos, n, pool, last);
    }
  }

  /**
   An event the writer refuses is the last one handed over, and the client is told of an error unless it had its
   done.
   */
  lemma RefusalIsReported(plan: F.Plan, w: F.World, pool: K.Pool, entry: Protocol, id: string, model: string, i: nat)
    requires F.Sound(plan)
    requires i < |F.ChatStream(plan, w, Acceptance(entry, id, model), pool).handed|
    requires var handed := F.ChatStream(plan, w, Acceptance(entry, id, model), pool).handed;
      Rejects(AfterAll(Start(entry, id, model), handed[..i]), handed[i])
    ensures var run := F.ChatStream(plan, w, Acceptance(entry, id, model), pool);
      && i == |run.handed| - 1
      && (ReportsError(Handled(entry, id, model, run.handed, run.ending).out) <==> !HasDone(run.handed))
  {
    hide Rejects, AfterAll, Start, Handled, ReportsError, F.StreamFrom;
    var sink := Acceptance(entry, id, model);
    var run := F.ChatStream(plan, w, sink, pool);
    RefusalFrom(plan, w, sink, 0, 0, pool, F.NOT_FOUND);
    assert run.handed[..i + 1][..i] == run.handed[..i];
    assert Refused(sink, run.handed, i);
    StreamEndsOnce(entry, id, model, run.handed, run.ending);
  }
}
