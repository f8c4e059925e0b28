/** The Anthropic stream as text: the adapter's read loop, and what it reads of the writer's records. */
module AnthropicSse {
  import opened Wrappers
  import opened Json
  import opened Ir
  import S = Sse
  import W = AnthropicWriter
  import P = AnthropicParser
  import R = AnthropicRoundTrip
  import C = CrossProtocol

  // ---------- Reading ----------

  /** One call of Feed on the text of a `data:` line. */
  function FeedText(codec: Codec, p: P.Parser, payload: string): (P.Parser, Result<seq<StreamEvent>>) {
    match codec.dec(payload)
    case None => (p, Err("invalid JSON"))
    case Some(doc) => P.FeedDoc(p, doc)
  }

  function ReadPayloads(codec: Codec, payloads: seq<string>): R.Reading {
    if |payloads| == 0 then R.Reading(P.INIT, [], false) else
    AfterPayload(codec, ReadPayloads(codec, payloads[..|payloads| - 1]), payloads[|payloads| - 1])
  }

  function AfterPayload(codec: Codec, r: R.Reading, payload: string): R.Reading {
    if r.failed then r else
    match FeedText(codec, r.parser, payload)
    case (_, Err(_)) => r.(failed := true)
    case (p, Ok(evs)) => R.Reading(p, r.events + evs, false)
  }

  /** What the adapter gets out of a response body: events, and whether it ended in an error. */
  function ReadBody(codec: Codec, body: string): (seq<StreamEvent>, bool) {
    var s := S.ScanLines(body);
    var r := ReadPayloads(codec, S.Payloads(s.lines));
    (r.events, r.failed || s.tooLong)
  }

  lemma {:induction false} FailureSticks(codec: Codec, a: seq<string>, b: seq<string>)
    requires ReadPayloads(codec, a).failed
    ensures ReadPayloads(codec, a + b) == ReadPayloads(codec, a)
    decreases |b|
  {
    if |b| == 0 {
      assert a + b == a;
    } else {
      FailureSticks(codec, a, b[..|b| - 1]);
      assert (a + b)[..|a + b| - 1] == a + b[..|b| - 1];
    }
  }

  lemma TakenStep(codec: Codec, lines: seq<string>, i: nat)
    requires i < |lines|
    ensures var before := ReadPayloads(codec, S.Payloads(lines[..i]));
      var after := ReadPayloads(codec, S.Payloads(lines[..i + 1]));
      after == match S.LinePayload(lines[i]) case None => before case Some(p) => AfterPayload(codec, before, p)
  {
    S.PayloadsSnoc(lines[..i], lines[i]);
    assert lines[..i + 1] == lines[..i] + [lines[i]];
    var payloads := S.Payloads(lines[..i]);
    if S.LinePayload(lines[i]).None? {
      assert payloads + [] == payloads;
    } else {
      assert (payloads + S.Taken(lines[i]))[..|payloads|] == payloads;
    }
  }

  lemma FailureAt(codec: Codec, lines: seq<string>, i: nat)
    requires i <= |lines| && ReadPayloads(codec, S.Payloads(lines[..i])).failed
    ensures ReadPayloads(codec, S.Payloads(lines)) == ReadPayloads(codec, S.Payloads(lines[..i]))
  {
    assert lines[..i] + lines[i..] == lines;
    S.PayloadsAppend(lines[..i], lines[i..]);
    FailureSticks(codec, S.Payloads(lines[..i]), S.Payloads(lines[i..]));
  }

  /** The scan loop of the adapter's ChatStream, with every event collected instead of emitted. */
  method ReadStream(codec: Codec, body: string) returns (events: seq<StreamEvent>, failed: bool)
    ensures (events, failed) == ReadBody(codec, body)
  {
    hide P.FeedDoc, S.LinePayload, S.ScanLines;
    var scan := S.ScanLines(body);
    var lines := scan.lines;
    var parser := new P.AnthropicStreamParser();
    events := [];
    var i := 0;
    while i < |lines|
      invariant 0 <= i <= |lines|
      invariant ReadPayloads(codec, S.Payloads(lines[..i])) == R.Reading(parser.State(), events, false)
    {
      TakenStep(codec, lines, i);
      var payload := S.LinePayload(lines[i]);
      if payload.Some? {
        var doc := codec.dec(payload.value);
        var evs := Err("invalid JSON");
        if doc.Some? {
          evs := parser.Feed(doc.value);
        }
        if evs.Err? {
          FailureAt(codec, lines, i + 1);
          return events, true;
        }
        events := events + evs.value;
      }
      i := i + 1;
    }
    assert lines[..i] == lines;
    failed := scan.tooLong;
  }

  // ---------- Writing ----------

  function EventName(f: W.Frame): string {
    match f
    case MessageStart(_, _) => "message_start"
    case BlockStart(_, _) => "content_block_start"
    case TextPiece(_, _) => "content_block_delta"
    case JsonPiece(_, _) => "content_block_delta"
    case BlockStop(_) => "content_block_stop"
    case MessageDelta(_, _, _) => "message_delta"
    case MessageStop => "message_stop"
    case ErrorFrame(_) => "error"
  }

  /** The record of a frame; its event line repeats the type in the payload. */
  function RecordOf(codec: Codec, f: W.Frame): S.Record {
    S.Record(Some(EventName(f)), codec.enc(P.Payload(f)))
  }

  function RecordsOf(codec: Codec, fs: seq<W.Frame>): (r: seq<S.Record>)
    ensures |r| == |fs| && forall i :: 0 <= i < |fs| ==> r[i] == RecordOf(codec, fs[i])
  {
    seq(|fs|, i requires 0 <= i < |fs| => RecordOf(codec, fs[i]))
  }

  function PayloadsOf(codec: Codec, fs: seq<W.Frame>): (r: seq<string>)
    ensures |r| == |fs| && forall i :: 0 <= i < |fs| ==> r[i] == codec.enc(P.Payload(fs[i]))
  {
    seq(|fs|, i requires 0 <= i < |fs| => codec.enc(P.Payload(fs[i])))
  }

  lemma NameIsType(f: W.Frame)
    ensures P.Payload(f).Obj? && StrField(P.Payload(f).fields, "type") == Ok(EventName(f))
  {
  }

  lemma NameOnOneLine(f: W.Frame)
    ensures S.Wire(EventName(f)) && |EventName(f)| < 100
  {
    var e := EventName(f);
    assert forall i :: 0 <= i < |e| ==> e[i] == '_' || 'a' <= e[i] <= 'z';
  }

  lemma RecordSurvives(codec: Codec, f: W.Frame)
    requires codec.Valid()
    ensures S.WireRecord(RecordOf(codec, f))
  {
    hide P.Payload, EventName;
    NameIsType(f);
    NameOnOneLine(f);
    assert IsObjectText(codec.enc(P.Payload(f)));
  }

  lemma {:induction false} PayloadsRead(codec: Codec, fs: seq<W.Frame>)
    requires codec.Valid()
    ensures ReadPayloads(codec, PayloadsOf(codec, fs)) == R.ReadFrames(fs)
  {
    hide P.FeedDoc, P.Payload;
    if |fs| == 0 {
    } else {
      var payloads := PayloadsOf(codec, fs);
      PayloadsRead(codec, fs[..|fs| - 1]);
      assert payloads[..|fs| - 1] == PayloadsOf(codec, fs[..|fs| - 1]);
    }
  }

  predicate FrameFits(codec: Codec, f: W.Frame) {
    S.Fits(RecordOf(codec, f))
  }

  /** The frames before the first one whose data line does not fit. */
  function Fitting(codec: Codec, fs: seq<W.Frame>): seq<W.Frame> {
    if |fs| == 0 || !FrameFits(codec, fs[0]) then [] else [fs[0]] + Fitting(codec, fs[1..])
  }

  lemma {:induction false} FittingIsPrefix(codec: Codec, fs: seq<W.Frame>)
    ensures Fitting(codec, fs) <= fs
    ensures Fitting(codec, fs) == fs <==> forall f | f in fs :: FrameFits(codec, f)
  {
    hide FrameFits;
    if |fs| == 0 {
    } else {
      var rest := fs[1..];
      FittingIsPrefix(codec, rest);
      assert fs == [fs[0]] + rest;
      assert forall f :: f in fs <==> f == fs[0] || f in rest;
    }
  }

  lemma PayloadsFirst(codec: Codec, f: W.Frame, fs: seq<W.Frame>)
    ensures PayloadsOf(codec, [f] + fs) == [RecordOf(codec, f).payload] + PayloadsOf(codec, fs)
    ensures PayloadsOf(codec, []) == []
  {
    hide P.Payload, EventName;
  }

  lemma {:induction false} FittingRecords(codec: Codec, fs: seq<W.Frame>)
    ensures S.FittingPayloads(RecordsOf(codec, fs)) == PayloadsOf(codec, Fitting(codec, fs))
  {
    hide P.Payload, EventName, S.Fits, RecordOf, PayloadsOf, RecordsOf;
    var rs := RecordsOf(codec, fs);
    if |fs| == 0 {
      assert PayloadsOf(codec, []) == [];
    } else {
      var rest := fs[1..];
      assert rs[1..] == RecordsOf(codec, rest);
      FittingRecords(codec, rest);
      PayloadsFirst(codec, fs[0], Fitting(codec, rest));
    }
  }

  lemma FittingAll(codec: Codec, fs: seq<W.Frame>)
    ensures (exists r :: r in RecordsOf(codec, fs) && !S.Fits(r)) <==> Fitting(codec, fs) != fs
  {
    FittingIsPrefix(codec, fs);
    hide P.Payload, EventName, S.Fits, Fitting, RecordOf;
    var rs := RecordsOf(codec, fs);
    if r :| r in rs && !S.Fits(r) {
      var i :| 0 <= i < |rs| && rs[i] == r;
      assert fs[i] in fs && !FrameFits(codec, fs[i]);
    }
    if Fitting(codec, fs) != fs {
      var f :| f in fs && !FrameFits(codec, f);
      var i :| 0 <= i < |fs| && fs[i] == f;
      assert rs[i] in rs && !S.Fits(rs[i]);
    }
  }

  /**
   Frames written as text are read back as the same frames, errors included, up to the first that does not fit; the
   scanner fails exactly if there is one.
   */
  lemma TextRoundTrip(codec: Codec, fs: seq<W.Frame>)
    requires codec.Valid()
    ensures var fit := Fitting(codec, fs);
      ReadBody(codec, S.RecordsText(RecordsOf(codec, fs))) ==
        (R.ReadFrames(fit).events, R.ReadFrames(fit).failed || fit != fs)
  {
    hide R.ReadFrames, S.ScanLines, S.RecordsText, RecordOf, PayloadsOf, ReadPayloads, Fitting;
    var rs := RecordsOf(codec, fs);
    forall r | r in rs
      ensures S.WireRecord(r)
    {
      var i :| 0 <= i < |rs| && rs[i] == r;
      RecordSurvives(codec, fs[i]);
    }
    S.FramingRoundTrip(rs);
    FittingRecords(codec, fs);
    FittingAll(codec, fs);
    FittingIsPrefix(codec, fs);
    PayloadsRead(codec, Fitting(codec, fs));
  }

  /** Reading less of a readable stream gives fewer events and no failure. */
  lemma {:induction false} ReadLess(fs: seq<W.Frame>, k: nat)
    requires k <= |fs| && !R.ReadFrames(fs).failed
    ensures !R.ReadFrames(fs[..k]).failed && R.ReadFrames(fs[..k]).events <= R.ReadFrames(fs).events
  {
    hide P.FeedDoc, P.Payload;
    if k == |fs| {
      assert fs[..k] == fs;
    } else {
      var init := fs[..|fs| - 1];
      assert init[..k] == fs[..k];
      ReadLess(init, k);
    }
  }

  /**
   An Anthropic client reads the text of a finished stream up to the first line that does not fit; when all lines fit,
   and only then, reading succeeds, and it has the stream's meaning.
   */
  lemma ClientReadsMeaning(codec: Codec, id: string, model: string, evs: seq<StreamEvent>)
    requires codec.Valid()
    ensures var out := W.AfterFinish(W.AfterAll(W.Start(id, model), evs)).out;
      var (read, failed) := ReadBody(codec, S.RecordsText(RecordsOf(codec, out)));
      && read == R.ReadFrames(Fitting(codec, out)).events && read <= R.ReadFrames(out).events
      && (failed <==> exists f :: f in out && !FrameFits(codec, f))
      && (!failed ==> C.SameMeaning(Assemble(Complete(evs)), Assemble(read)))
  {
    hide W.AfterAll, W.AfterFinish, R.ReadFrames, C.SameMeaning, RecordsOf, S.RecordsText;
    var out := W.AfterFinish(W.AfterAll(W.Start(id, model), evs)).out;
    C.AnthropicClientMeaning(id, model, evs);
    TextRoundTrip(codec, out);
    var fit := Fitting(codec, out);
    FittingIsPrefix(codec, out);
    ReadLess(out, |fit|);
    assert out[..|fit|] == fit;
  }
}
