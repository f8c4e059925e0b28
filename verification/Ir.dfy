/** The protocol-neutral stream events, and what a client reads out of a list of them. */
module Ir {
  import opened Wrappers

  datatype Usage = Usage(prompt: int, completion: int, total: int)

  datatype StreamEvent =
    | TextDelta(delta: string)
    | ToolCallStart(index: int, id: string, name: string)
    | ToolCallDelta(index: int, arguments: string)
    | ToolCallStop(index: int)
    | Done(finishReason: string, usage: Option<Usage>)

  /** One tool call as a client assembles it; `index` is the stream's own number for it. */
  datatype Call = Call(index: int, id: string, name: string, arguments: string)

  /** Everything a client learns from a stream. `end` is absent while no done event has arrived. */
  datatype Transcript = Transcript(text: string, calls: seq<Call>, end: Option<StreamEvent>)

  const EMPTY := Transcript("", [], None)

  /** The position of the latest call with a given index, or -1. */
  function Latest(calls: seq<Call>, index: int): (k: int)
    ensures -1 <= k < |calls|
    ensures k >= 0 ==> calls[k].index == index
    ensures forall j :: k < j < |calls| ==> calls[j].index != index
  {
    if |calls| == 0 then -1 else
    if calls[|calls| - 1].index == index then |calls| - 1 else Latest(calls[..|calls| - 1], index)
  }

  /** How a client extends a transcript by one event: arguments go to the latest call with that index. */
  function Extend(t: Transcript, ev: StreamEvent): Transcript {
    if t.end.Some? then t else
    match ev
    case TextDelta(d) => t.(text := t.text + d)
    case ToolCallStart(i, id, name) => t.(calls := t.calls + [Call(i, id, name, "")])
    case ToolCallDelta(i, args) =>
      var k := Latest(t.calls, i);
      if k < 0 then t else t.(calls := t.calls[k := t.calls[k].(arguments := t.calls[k].arguments + args)])
    case ToolCallStop(_) => t
    case Done(_, _) => t.(end := Some(ev))
  }

  function Assemble(evs: seq<StreamEvent>): Transcript {
    if |evs| == 0 then EMPTY else Extend(Assemble(evs[..|evs| - 1]), evs[|evs| - 1])
  }

  /** The events up to and including the first done. */
  function Cut(evs: seq<StreamEvent>): seq<StreamEvent> {
    if |evs| == 0 then [] else
    if HasDone(evs[..|evs| - 1]) then Cut(evs[..|evs| - 1]) else evs
  }

  predicate HasDone(evs: seq<StreamEvent>) {
    exists i :: 0 <= i < |evs| && evs[i].Done?
  }

  /** A finished stream: cut after its first done, or closed by an empty done when none came. */
  function Complete(evs: seq<StreamEvent>): seq<StreamEvent> {
    if HasDone(evs) then Cut(evs) else evs + [Done("", None)]
  }

  lemma AssembleSnoc(evs: seq<StreamEvent>, ev: StreamEvent)
    ensures Assemble(evs + [ev]) == Extend(Assemble(evs), ev)
  {
    assert (evs + [ev])[..|evs|] == evs;
  }

  lemma LatestSnoc(calls: seq<Call>, c: Call, i: int)
    ensures Latest(calls + [c], i) == if c.index == i then |calls| else Latest(calls, i)
  {
    assert (calls + [c])[..|calls|] == calls;
  }

  lemma {:induction false} LatestUpdate(calls: seq<Call>, k: nat, c: Call, i: int)
    requires k < |calls| && c.index == calls[k].index
    ensures Latest(calls[k := c], i) == Latest(calls, i)
  {
    var n := |calls| - 1;
    if k < n {
      LatestUpdate(calls[..n], k, c, i);
      assert calls[k := c][..n] == calls[..n][k := c];
    } else {
      assert calls[k := c][..n] == calls[..n];
    }
  }

  lemma LatestUpdates(calls: seq<Call>, k: nat, c: Call)
    requires k < |calls| && c.index == calls[k].index
    ensures forall i :: Latest(calls[k := c], i) == Latest(calls, i)
  {
    forall i: int
      ensures Latest(calls[k := c], i) == Latest(calls, i)
    {
      LatestUpdate(calls, k, c, i);
    }
  }
}
