/**
 SSE text: how the writers frame a payload, and how the upstream readers get payloads back out of a body.
 The framing is that of the WHATWG HTML standard, section 9.2, as far as the gateway uses it.
 */
module Sse {
  import opened Wrappers
  import opened Text
  import opened Json
  import opened Ir
  import opened OpenAIStream
  import opened OpenAIWriter

  /** unicode.IsSpace. */
  predicate IsSpace(c: char) {
    || ('\t' <= c <= '\r') || c == ' '
    || c as int == 0x85 || c as int == 0xA0 || c as int == 0x1680 || 0x2000 <= c as int <= 0x200A
    || c as int == 0x2028 || c as int == 0x2029 || c as int == 0x202F || c as int == 0x205F || c as int == 0x3000
  }

  function TrimLeft(s: string): string {
    if |s| > 0 && IsSpace(s[0]) then TrimLeft(s[1..]) else s
  }

  function TrimRight(s: string): string {
    if |s| > 0 && IsSpace(s[|s| - 1]) then TrimRight(s[..|s| - 1]) else s
  }

  function TrimSpace(s: string): string {
    TrimRight(TrimLeft(s))
  }

  /** The number of bytes of a character and of a text in UTF-8. */
  function Width(c: char): nat {
    if c as int < 0x80 then 1 else if c as int < 0x800 then 2 else if c as int < 0x10000 then 3 else 4
  }

  function Bytes(s: string): nat {
    if |s| == 0 then 0 else Width(s[0]) + Bytes(s[1..])
  }

  /** The longest line, with its newline, that the scanner's buffer holds, in bytes. */
  const MAX_LINE := 0x100000

  /** The lines a bufio.Scanner delivers, and whether it then stopped with a token-too-long error. */
  datatype Scan = Scan(lines: seq<string>, tooLong: bool)

  /** The length of the first line. */
  function LineLength(s: string): (n: nat)
    ensures n <= |s|
  {
    if |s| == 0 || s[0] == '\n' then 0 else 1 + LineLength(s[1..])
  }

  function ScanLines(s: string): Scan {
    if |s| == 0 then Scan([], false) else
    var n := LineLength(s);
    if Bytes(s[..n]) >= MAX_LINE then Scan([], true) else
    var rest := if n == |s| then Scan([], false) else ScanLines(s[n + 1..]);
    Scan([s[..n]] + rest.lines, rest.tooLong)
  }

  /** What the reader's loop body takes from one line: nothing for blank lines, comments and other fields. */
  function LinePayload(line: string): Option<string> {
    var t := TrimSpace(line);
    if !HasPrefix(t, "data:") then None else
    var payload := TrimSpace(t[|"data:"|..]);
    if payload == "" then None else Some(payload)
  }

  function Payloads(lines: seq<string>): seq<string> {
    if |lines| == 0 then [] else
    Taken(lines[0]) + Payloads(lines[1..])
  }

  function Taken(line: string): seq<string> {
    match LinePayload(line) case None => [] case Some(p) => [p]
  }

  /** One written record: the Anthropic writer names the event on a line of its own, the other two do not. */
  datatype Record = Record(event: Option<string>, payload: string)

  function RecordText(r: Record): string {
    (match r.event case None => "" case Some(e) => "event: " + e + "\n") + ("data: " + r.payload + "\n" + "\n")
  }

  function RecordsText(rs: seq<Record>): string {
    if |rs| == 0 then "" else RecordText(rs[0]) + RecordsText(rs[1..])
  }

  /** Text that survives framing: one line that starts and ends with something TrimSpace keeps. */
  predicate Wire(s: string) {
    |s| > 0 && !IsSpace(s[0]) && !IsSpace(s[|s| - 1]) && '\n' !in s
  }

  predicate WireRecord(r: Record) {
    Wire(r.payload) && (r.event.Some? ==> Wire(r.event.value) && |r.event.value| < 100)
  }

  /** Whether the scanner can hold the record's data line. */
  predicate Fits(r: Record) {
    Bytes("data: " + r.payload) < MAX_LINE
  }

  /** The payloads of the records before the first one that does not fit. */
  function FittingPayloads(rs: seq<Record>): seq<string> {
    if |rs| == 0 || !Fits(rs[0]) then [] else [rs[0].payload] + FittingPayloads(rs[1..])
  }

  lemma {:induction false} ScanFirst(line: string, rest: string)
    requires '\n' !in line
    ensures LineLength(line + "\n" + rest) == |line|
    ensures ScanLines(line + "\n" + rest) ==
      if Bytes(line) >= MAX_LINE then Scan([], true)
      else Scan([line] + ScanLines(rest).lines, ScanLines(rest).tooLong)
  {
    var s := line + "\n" + rest;
    if |line| > 0 {
      assert s[1..] == line[1..] + "\n" + rest;
      ScanFirst(line[1..], rest);
    }
    assert s[..|line|] == line && s[|line| + 1..] == rest;
  }

  lemma TrimKeeps(s: string)
    requires |s| > 0 && !IsSpace(s[0]) && !IsSpace(s[|s| - 1])
    ensures TrimSpace(s) == s && TrimSpace(" " + s) == s
  {
    assert (" " + s)[1..] == s;
  }

  lemma DataLine(p: string)
    requires Wire(p)
    ensures LinePayload("data: " + p) == Some(p)
  {
    var line := "data: " + p;
    assert line[|line| - 1] == p[|p| - 1];
    TrimKeeps(line);
    assert line[..5] == "data:" && line[5..] == " " + p;
    TrimKeeps(p);
  }

  lemma EventLine(e: string)
    requires Wire(e)
    ensures LinePayload("event: " + e) == None
  {
    var line := "event: " + e;
    assert line[|line| - 1] == e[|e| - 1];
    TrimKeeps(line);
    assert line[0] == 'e';
  }

  lemma {:induction false} BytesBound(s: string)
    ensures Bytes(s) <= 4 * |s|
  {
    if |s| == 0 {
    } else {
      BytesBound(s[1..]);
    }
  }

  lemma EventFits(e: string)
    requires |e| < 100
    ensures Bytes("event: " + e) < MAX_LINE
  {
    BytesBound("event: " + e);
  }

  lemma PayloadsCons(line: string, lines: seq<string>)
    ensures Payloads([line] + lines) == Taken(line) + Payloads(lines)
  {
    assert ([line] + lines)[1..] == lines;
  }

  /** A data line and the blank line after it. */
  lemma ScanRecordTail(p: string, rest: string)
    requires Wire(p)
    ensures var s := ScanLines("data: " + p + "\n" + "\n" + rest);
      var r := ScanLines(rest);
      if Bytes("data: " + p) >= MAX_LINE then s == Scan([], true)
      else Payloads(s.lines) == [p] + Payloads(r.lines) && s.tooLong == r.tooLong
  {
    var data := "data: " + p;
    assert data + "\n" + "\n" + rest == data + "\n" + ("" + "\n" + rest);
    ScanFirst(data, "" + "\n" + rest);
    ScanFirst("", rest);
    if Bytes(data) < MAX_LINE {
      var r := ScanLines(rest);
      DataLine(p);
      PayloadsCons(data, [""] + r.lines);
      assert LinePayload("") == None;
      PayloadsCons("", r.lines);
      assert [] + Payloads(r.lines) == Payloads(r.lines);
    }
  }

  lemma ScanRecord(rec: Record, rest: string)
    requires WireRecord(rec)
    ensures var s := ScanLines(RecordText(rec) + rest);
      var r := ScanLines(rest);
      if !Fits(rec) then Payloads(s.lines) == [] && s.tooLong
      else Payloads(s.lines) == [rec.payload] + Payloads(r.lines) && s.tooLong == r.tooLong
  {
    ScanRecordTail(rec.payload, rest);
    var tail := "data: " + rec.payload + "\n" + "\n" + rest;
    match rec.event
    case None =>
      assert RecordText(rec) + rest == tail;
    case Some(e) =>
      var line := "event: " + e;
      assert RecordText(rec) + rest == line + "\n" + tail;
      ScanFirst(line, tail);
      EventFits(e);
      EventLine(e);
      PayloadsCons(line, ScanLines(tail).lines);
  }

  /**
   Reading a framed body gives back exactly the payloads written, in order, up to the first record whose
   data line exceeds the scanner's buffer; the scanner fails if and only if there is such a record.
   */
  lemma {:induction false} FramingRoundTrip(rs: seq<Record>)
    requires forall r | r in rs :: WireRecord(r)
    ensures Payloads(ScanLines(RecordsText(rs)).lines) == FittingPayloads(rs)
    ensures ScanLines(RecordsText(rs)).tooLong <==> exists r :: r in rs && !Fits(r)
  {
    if |rs| == 0 {
    } else {
      FramingRoundTrip(rs[1..]);
      ScanRecord(rs[0], RecordsText(rs[1..]));
      assert forall r :: r in rs <==> r == rs[0] || r in rs[1..];
    }
  }

  // ---------- What the reader takes from any body ----------

  predicate Spaces(s: string) {
    forall i :: 0 <= i < |s| ==> IsSpace(s[i])
  }

  predicate Trimmed(s: string) {
    |s| > 0 && !IsSpace(s[0]) && !IsSpace(s[|s| - 1])
  }

  lemma {:induction false} TrimLeftIs(a: string, s: string)
    requires Spaces(a) && (s != "" ==> !IsSpace(s[0]))
    ensures TrimLeft(a + s) == s
  {
    hide IsSpace;
    if a == "" {
      assert a + s == s;
    } else {
      TrimLeftIs(a[1..], s);
      assert (a + s)[1..] == a[1..] + s;
    }
  }

  lemma {:induction false} TrimRightIs(s: string, c: string)
    requires Spaces(c) && (s != "" ==> !IsSpace(s[|s| - 1]))
    ensures TrimRight(s + c) == s
  {
    hide IsSpace;
    if c == "" {
      assert s + c == s;
    } else {
      TrimRightIs(s, c[..|c| - 1]);
      assert (s + c)[..|s + c| - 1] == s + c[..|c| - 1];
      assert (s + c)[|s + c| - 1] == c[|c| - 1];
    }
  }

  lemma {:induction false} TrimLeftSplits(s: string) returns (a: string)
    ensures Spaces(a) && s == a + TrimLeft(s) && (TrimLeft(s) != "" ==> !IsSpace(TrimLeft(s)[0]))
  {
    hide IsSpace;
    if |s| > 0 && IsSpace(s[0]) {
      var rest := TrimLeftSplits(s[1..]);
      a := [s[0]] + rest;
      assert s == [s[0]] + s[1..];
    } else {
      a := "";
    }
  }

  lemma {:induction false} TrimRightSplits(s: string) returns (c: string)
    ensures Spaces(c) && s == TrimRight(s) + c && (TrimRight(s) != "" ==> !IsSpace(TrimRight(s)[|TrimRight(s)| - 1]))
  {
    hide IsSpace;
    if |s| > 0 && IsSpace(s[|s| - 1]) {
      var rest := TrimRightSplits(s[..|s| - 1]);
      c := rest + [s[|s| - 1]];
      assert s == s[..|s| - 1] + [s[|s| - 1]];
    } else {
      c := "";
      assert s == s + "";
    }
  }

  lemma TrimSplits(s: string) returns (a: string, c: string)
    ensures Spaces(a) && Spaces(c) && s == a + TrimSpace(s) + c && (TrimSpace(s) == "" || Trimmed(TrimSpace(s)))
  {
    a := TrimLeftSplits(s);
    c := TrimRightSplits(TrimLeft(s));
    hide IsSpace, TrimLeft, TrimRight;
    assert a + (TrimSpace(s) + c) == a + TrimSpace(s) + c;
    if TrimSpace(s) != "" {
      assert TrimLeft(s)[0] == TrimSpace(s)[0];
    }
  }

  /** A line with this payload: the field name at its start and blanks anywhere around. */
  ghost predicate DataLineOf(line: string, p: string, a: string, b: string, c: string) {
    Spaces(a) && Spaces(b) && Spaces(c) && Trimmed(p) && line == a + "data:" + b + p + c
  }

  lemma PayloadOfLine(line: string, p: string, a: string, b: string, c: string)
    requires DataLineOf(line, p, a, b, c)
    ensures LinePayload(line) == Some(p)
  {
    hide IsSpace, TrimLeft, TrimRight;
    var head := "data:" + b + p;
    assert line == a + (head + c);
    assert head[0] == 'd' && head[|head| - 1] == p[|p| - 1] && head[..5] == "data:" && head[5..] == b + p;
    DIsNoSpace();
    TrimLeftIs(a, head + c);
    TrimRightIs(head, c);
    TrimLeftIs(b, p);
    TrimRightIs(p, "");
    assert p + "" == p;
  }

  lemma DIsNoSpace()
    ensures !IsSpace('d')
  {
  }

  /** A line gives a payload exactly when it is a `data:` field with something in it, and then gives just that. */
  lemma LinePayloadMeaning(line: string, p: string)
    ensures LinePayload(line) == Some(p) <==> exists a, b, c :: DataLineOf(line, p, a, b, c)
  {
    hide IsSpace, TrimLeft, TrimRight, TrimSpace;
    if LinePayload(line) == Some(p) {
      var a, c := TrimSplits(line);
      var t := TrimSpace(line);
      var b, d := TrimSplits(t[5..]);
      assert t == "data:" + t[5..];
      assert line == a + "data:" + b + p + (d + c);
      assert DataLineOf(line, p, a, b, d + c);
    }
    if a, b, c :| DataLineOf(line, p, a, b, c) {
      PayloadOfLine(line, p, a, b, c);
    }
  }

  function Unlines(lines: seq<string>): string {
    if |lines| == 0 then "" else lines[0] + "\n" + Unlines(lines[1..])
  }

  lemma LineLengthMeaning(s: string)
    ensures '\n' !in s[..LineLength(s)] && (LineLength(s) == |s| || s[LineLength(s)] == '\n')
  {
    if |s| == 0 || s[0] == '\n' {
    } else {
      LineLengthMeaning(s[1..]);
      assert s[..LineLength(s)] == [s[0]] + s[1..][..LineLength(s[1..])];
    }
  }

  /** The text starts with a line of a megabyte or more. */
  ghost predicate LongLine(s: string) {
    exists n: nat :: LongFirst(s, n)
  }

  predicate LongFirst(s: string, n: nat) {
    n <= |s| && '\n' !in s[..n] && (n == |s| || s[n] == '\n') && Bytes(s[..n]) >= 1024 * 1024
  }

  /** A scan that cut the text into its lines, the last with or without a newline, up to the first that is too long. */
  ghost predicate Cuts(scan: Scan, s: string) {
    && (forall line :: line in scan.lines ==> '\n' !in line && Bytes(line) < 1024 * 1024)
    && var read := Unlines(scan.lines);
    if scan.tooLong then read <= s && LongLine(s[|read|..])
    else read == if s == "" || s[|s| - 1] == '\n' then s else s + "\n"
  }

  /** One more line in front. */
  lemma CutsMore(line: string, rest: string, scan: Scan)
    requires '\n' !in line && Bytes(line) < 1024 * 1024 && Cuts(scan, rest)
    ensures Cuts(Scan([line] + scan.lines, scan.tooLong), line + "\n" + rest)
  {
    hide Bytes, LongLine;
    var lines, s := [line] + scan.lines, line + "\n" + rest;
    var head, read := line + "\n", Unlines(scan.lines);
    assert lines[1..] == scan.lines;
    assert Unlines(lines) == head + read && s == head + rest;
    assert forall l :: l in lines <==> l == line || l in scan.lines;
    if scan.tooLong {
      Behind(head, read, rest);
    } else if rest == "" || rest[|rest| - 1] == '\n' {
      assert s[|s| - 1] == '\n';
    } else {
      assert s[|s| - 1] == rest[|rest| - 1];
      assert head + (rest + "\n") == s + "\n";
    }
  }

  lemma Behind(head: string, read: string, rest: string)
    requires read <= rest
    ensures head + read <= head + rest && (head + rest)[|head + read|..] == rest[|read|..]
  {
  }

  lemma LastLine(s: string)
    requires s != "" && '\n' !in s && Bytes(s) < 1024 * 1024
    ensures Cuts(Scan([s], false), s)
  {
    assert [s][1..] == [] && s + "\n" + "" == s + "\n";
    assert s[|s| - 1] in s;
  }

  lemma {:induction false} ScanMeaning(s: string)
    ensures Cuts(ScanLines(s), s)
  {
    hide Bytes, LineLength, Cuts;
    if |s| == 0 {
      NothingToCut();
    } else {
      var n := LineLength(s);
      LineLengthMeaning(s);
      if Bytes(s[..n]) >= MAX_LINE {
        TooLong(s, n);
      } else if n == |s| {
        assert s[..n] == s;
        LastLine(s);
        assert [s] + [] == [s];
      } else {
        var rest := s[n + 1..];
        ScanMeaning(rest);
        CutsMore(s[..n], rest, ScanLines(rest));
        assert s == s[..n] + "\n" + rest;
      }
    }
  }

  lemma NothingToCut()
    ensures Cuts(Scan([], false), "")
  {
  }

  lemma TooLong(s: string, n: nat)
    requires LongFirst(s, n)
    ensures Cuts(Scan([], true), s)
  {
    assert s[0..] == s;
  }

  // ---------- From text to data lines ----------

  function DataOf(codec: Codec, payload: string): Data {
    if payload == DONE_MARKER then DoneMarker else
    match codec.dec(payload) case Some(j) => Doc(j) case None => Malformed
  }

  function DatasOf(codec: Codec, payloads: seq<string>): seq<Data> {
    seq(|payloads|, i requires 0 <= i < |payloads| => DataOf(codec, payloads[i]))
  }

  predicate ObjectData(d: Data) {
    d.DoneMarker? || (d.Doc? && d.json.Obj?)
  }

  function PayloadOf(codec: Codec, d: Data): string
    requires ObjectData(d)
  {
    if d.DoneMarker? then DONE_MARKER else codec.enc(d.json)
  }

  /** The records of a writer that frames with a `data:` line only. */
  function PlainRecords(codec: Codec, datas: seq<Data>): seq<Record>
    requires forall d | d in datas :: ObjectData(d)
  {
    seq(|datas|, i requires 0 <= i < |datas| => Record(None, PayloadOf(codec, datas[i])))
  }

  lemma PayloadRoundTrip(codec: Codec, d: Data)
    requires codec.Valid() && ObjectData(d)
    ensures Wire(PayloadOf(codec, d)) && DataOf(codec, PayloadOf(codec, d)) == d
  {
    var p := PayloadOf(codec, d);
    if d.Doc? {
      assert IsObjectText(p);
      assert p[0] == '{' && DONE_MARKER[0] == '[';
    }
  }

  /** Whether the data line fits the scanner when it is written. */
  predicate DataFits(codec: Codec, d: Data)
    requires ObjectData(d)
  {
    Fits(Record(None, PayloadOf(codec, d)))
  }

  /** The data lines before the first one that does not fit. */
  function Fitting(codec: Codec, datas: seq<Data>): (r: seq<Data>)
    requires forall d | d in datas :: ObjectData(d)
    ensures r <= datas && (r == datas <==> forall d | d in datas :: DataFits(codec, d))
  {
    if |datas| == 0 then [] else
    assert datas[0] in datas;
    if !DataFits(codec, datas[0]) then [] else
    assert forall d :: d in datas <==> d == datas[0] || d in datas[1..];
    [datas[0]] + Fitting(codec, datas[1..])
  }

  lemma FittingFirst(codec: Codec, d: Data, rest: seq<Data>)
    requires ObjectData(d) && forall e | e in rest :: ObjectData(e)
    ensures var datas := [d] + rest;
      && (forall e | e in datas :: ObjectData(e))
      && PlainRecords(codec, datas) == [Record(None, PayloadOf(codec, d))] + PlainRecords(codec, rest)
      && Fitting(codec, datas) == if DataFits(codec, d) then [d] + Fitting(codec, rest) else []
  {
    hide PayloadOf, ObjectData, DataFits;
    assert ([d] + rest)[1..] == rest;
  }

  lemma PayloadsFirst(r: Record, rs: seq<Record>)
    ensures FittingPayloads([r] + rs) == if Fits(r) then [r.payload] + FittingPayloads(rs) else []
  {
    hide Fits;
    assert ([r] + rs)[1..] == rs;
  }

  lemma {:induction false} FittingRecords(codec: Codec, datas: seq<Data>)
    requires codec.Valid() && forall d | d in datas :: ObjectData(d)
    ensures DatasOf(codec, FittingPayloads(PlainRecords(codec, datas))) == Fitting(codec, datas)
  {
    if |datas| == 0 {
      assert PlainRecords(codec, datas) == [] && FittingPayloads([]) == [] && DatasOf(codec, []) == [];
    } else {
      hide PayloadOf, DataOf, ObjectData, Fits, FittingPayloads, Fitting, PlainRecords;
      var d, rest := datas[0], datas[1..];
      assert datas == [d] + rest && d in datas && forall e :: e in rest ==> e in datas;
      FittingRecords(codec, rest);
      FittingFirst(codec, d, rest);
      PayloadRoundTrip(codec, d);
      var r := Record(None, PayloadOf(codec, d));
      PayloadsFirst(r, PlainRecords(codec, rest));
      DatasAppend(codec, [r.payload], FittingPayloads(PlainRecords(codec, rest)));
      assert DatasOf(codec, [r.payload]) == [d];
      assert DatasOf(codec, []) == [];
    }
  }

  lemma FittingAll(codec: Codec, datas: seq<Data>)
    requires forall d | d in datas :: ObjectData(d)
    ensures (exists r :: r in PlainRecords(codec, datas) && !Fits(r)) <==> Fitting(codec, datas) != datas
  {
    hide Fits, Fitting, ObjectData, PayloadOf;
    var rs := PlainRecords(codec, datas);
    if r :| r in rs && !Fits(r) {
      var i :| 0 <= i < |rs| && rs[i] == r;
      assert datas[i] in datas && !DataFits(codec, datas[i]);
    }
    if Fitting(codec, datas) != datas {
      var d :| d in datas && !DataFits(codec, d);
      var i :| 0 <= i < |datas| && datas[i] == d;
      assert rs[i] in rs && !Fits(rs[i]);
    }
  }

  /**
   Objects and end markers written as text are read back as the same data lines, up to the first that does not fit;
   the scanner fails exactly if there is one.
   */
  lemma TextRoundTrip(codec: Codec, datas: seq<Data>)
    requires codec.Valid()
    requires forall d | d in datas :: ObjectData(d)
    ensures var s := ScanLines(RecordsText(PlainRecords(codec, datas)));
      && DatasOf(codec, Payloads(s.lines)) == Fitting(codec, datas)
      && (s.tooLong <==> Fitting(codec, datas) != datas)
  {
    var rs := PlainRecords(codec, datas);
    forall i | 0 <= i < |datas|
      ensures WireRecord(rs[i]) && DataOf(codec, rs[i].payload) == datas[i]
    {
      PayloadRoundTrip(codec, datas[i]);
    }
    FramingRoundTrip(rs);
    FittingRecords(codec, datas);
    FittingAll(codec, datas);
  }

  /** Reading less of a readable stream gives fewer events and no failure. */
  lemma {:induction false} ReadLess(datas: seq<Data>, k: nat)
    requires k <= |datas| && !ReadAll(datas).failed
    ensures !ReadAll(datas[..k]).failed && ReadAll(datas[..k]).events <= ReadAll(datas).events
  {
    if k == |datas| {
      assert datas[..k] == datas;
    } else {
      var init := datas[..|datas| - 1];
      assert init[..k] == datas[..k];
      ReadLess(init, k);
    }
  }

  // ---------- The upstream reader ----------

  /** What the OpenAI upstream adapter gets out of a response body: events, and whether it ended in an error. */
  function ReadBody(codec: Codec, body: string): (seq<StreamEvent>, bool) {
    var s := ScanLines(body);
    var r := ReadAll(DatasOf(codec, Payloads(s.lines)));
    (r.events, r.failed || s.tooLong)
  }

  lemma {:induction false} PayloadsSnoc(lines: seq<string>, line: string)
    ensures Payloads(lines + [line]) == Payloads(lines) + Taken(line)
  {
    hide Taken;
    if |lines| == 0 {
      assert lines + [line] == [line];
      PayloadsCons(line, []);
    } else {
      PayloadsSnoc(lines[1..], line);
      assert (lines + [line])[1..] == lines[1..] + [line];
    }
  }

  lemma {:induction false} FailureSticks(datas: seq<Data>, more: seq<Data>)
    requires ReadAll(datas).failed
    ensures ReadAll(datas + more) == ReadAll(datas)
    decreases |more|
  {
    if |more| == 0 {
      assert datas + more == datas;
    } else {
      var n := |more| - 1;
      FailureSticks(datas, more[..n]);
      assert (datas + more)[..|datas + more| - 1] == datas + more[..n];
    }
  }

  lemma DatasAppend(codec: Codec, a: seq<string>, b: seq<string>)
    ensures DatasOf(codec, a + b) == DatasOf(codec, a) + DatasOf(codec, b)
  {
  }

  lemma {:induction false} PayloadsAppend(a: seq<string>, b: seq<string>)
    ensures Payloads(a + b) == Payloads(a) + Payloads(b)
  {
    hide Taken;
    if |a| == 0 {
      assert a + b == b && Payloads(a) == [];
    } else {
      PayloadsAppend(a[1..], b);
      assert a + b == [a[0]] + (a[1..] + b);
      PayloadsCons(a[0], a[1..] + b);
      assert (Taken(a[0]) + Payloads(a[1..])) + Payloads(b) == Taken(a[0]) + (Payloads(a[1..]) + Payloads(b));
    }
  }

  /** The data lines in a list of text lines. */
  function LineDatas(codec: Codec, lines: seq<string>): seq<Data> {
    DatasOf(codec, Payloads(lines))
  }

  function PayloadData(codec: Codec, payload: Option<string>): seq<Data> {
    if payload.Some? then [DataOf(codec, payload.value)] else []
  }

  lemma LineStep(codec: Codec, lines: seq<string>, i: nat)
    requires i < |lines|
    ensures LineDatas(codec, lines[..i + 1]) == LineDatas(codec, lines[..i]) + PayloadData(codec, LinePayload(lines[i]))
  {
    PayloadsSnoc(lines[..i], lines[i]);
    assert lines[..i + 1] == lines[..i] + [lines[i]];
    DatasAppend(codec, Payloads(lines[..i]), Taken(lines[i]));
  }

  lemma FailureAt(codec: Codec, lines: seq<string>, i: nat)
    requires i <= |lines| && ReadAll(LineDatas(codec, lines[..i])).failed
    ensures ReadAll(LineDatas(codec, lines)) == ReadAll(LineDatas(codec, lines[..i]))
  {
    hide Payloads, DatasOf, ReadAll;
    PayloadsAppend(lines[..i], lines[i..]);
    assert lines[..i] + lines[i..] == lines;
    DatasAppend(codec, Payloads(lines[..i]), Payloads(lines[i..]));
    FailureSticks(LineDatas(codec, lines[..i]), LineDatas(codec, lines[i..]));
  }

  lemma ReadAllSnoc(datas: seq<Data>, d: Data)
    requires !ReadAll(datas).failed
    ensures ReadAll(datas + [d]) ==
      match FeedData(ReadAll(datas).parser, d)
      case (_, Err(_)) => ReadAll(datas).(failed := true)
      case (p, Ok(evs)) => Reading(p, ReadAll(datas).events + evs, false)
  {
    assert (datas + [d])[..|datas|] == datas;
  }

  /** One round of the scan loop: the line's payload, if it has one, goes to the parser. */
  method FeedLine(codec: Codec, parser: OpenAIStreamParser, line: string, ghost datas: seq<Data>)
    returns (evs: Result<seq<StreamEvent>>)
    requires ReadAll(datas).parser == parser.State() && !ReadAll(datas).failed
    modifies parser
    ensures var r := ReadAll(datas + PayloadData(codec, LinePayload(line)));
      && r.failed == evs.Err?
      && (evs.Ok? ==> r.events == ReadAll(datas).events + evs.value && r.parser == parser.State())
      && (evs.Err? ==> r.events == ReadAll(datas).events)
  {
    var payload := LinePayload(line);
    if payload.None? {
      assert datas + [] == datas;
      assert ReadAll(datas).events + [] == ReadAll(datas).events;
      return Ok([]);
    }
    ReadAllSnoc(datas, DataOf(codec, payload.value));
    evs := parser.Feed(DataOf(codec, payload.value));
  }

  /** The scan loop of the adapter's ChatStream, with every event collected instead of emitted. */
  method ReadStream(codec: Codec, body: string) returns (events: seq<StreamEvent>, failed: bool)
    ensures (events, failed) == ReadBody(codec, body)
  {
    var scan := ScanLines(body);
    var lines := scan.lines;
    var parser := new OpenAIStreamParser();
    events := [];
    ghost var datas: seq<Data> := [];
    var i := 0;
    while i < |lines|
      invariant 0 <= i <= |lines|
      invariant datas == LineDatas(codec, lines[..i])
      invariant ReadAll(datas) == Reading(parser.State(), events, false)
    {
      LineStep(codec, lines, i);
      var evs := FeedLine(codec, parser, lines[i], datas);
      if evs.Err? {
        FailureAt(codec, lines, i + 1);
        return events, true;
      }
      events := events + evs.value;
      datas := datas + PayloadData(codec, LinePayload(lines[i]));
      i := i + 1;
    }
    assert lines[..i] == lines;
    failed := scan.tooLong;
  }

  /** Everything the writer emits can be printed. */
  lemma {:induction false} WriterObjects(h: Header, evs: seq<StreamEvent>)
    ensures forall d | d in AfterAll(Start(h), evs).out :: ObjectData(d)
  {
    if |evs| == 0 {
    } else {
      WriterObjects(h, evs[..|evs| - 1]);
    }
  }

  /**
   Retraction for text: an upstream body, read, written to the client and read again. The copy is read up to the first
   line that does not fit; it is complete, and reading succeeds, exactly when all lines fit.
   */
  lemma TextRetraction(codec: Codec, h: Header, body: string, msg: string)
    requires codec.Valid()
    ensures var (evs, failed) := ReadBody(codec, body);
      var out := Close(AfterAll(Start(h), evs), failed, msg).out;
      && (forall d | d in out :: ObjectData(d))
      && var (read, broken) := ReadBody(codec, RecordsText(PlainRecords(codec, out)));
      && read == ReadAll(Fitting(codec, out)).events && read <= Complete(evs)
      && (broken <==> exists d :: d in out && !DataFits(codec, d))
      && (!broken ==> read == Complete(evs))
  {
    var (evs, failed) := ReadBody(codec, body);
    var out := Close(AfterAll(Start(h), evs), failed, msg).out;
    WriterObjects(h, evs);
    Retraction(h, DatasOf(codec, Payloads(ScanLines(body).lines)), failed, msg);
    hide ScanLines, Payloads, DatasOf, ReadAll, AfterAll, PlainRecords, RecordsText, PayloadOf;
    TextRoundTrip(codec, out);
    var fit := Fitting(codec, out);
    ReadLess(out, |fit|);
    assert out[..|fit|] == fit;
  }
}
