/** What an event of an Anthropic stream says, read off its JSON members, and that the decoder reads the same. */
module AnthropicWire {
  import opened Wrappers
  import opened Json
  import opened JsonView
  import P = AnthropicParser

  // ---------- Which documents are events, and what they say ----------

  predicate EventOk(doc: Json) {
    && IsStruct(doc) && IsStr(At(doc, "type")) && IsInt(At(doc, "index"))
    && Strings(At(doc, "content_block"), ["type", "id", "name"])
    && Strings(At(doc, "delta"), ["type", "text", "partial_json", "stop_reason"])
    && IsStruct(At(doc, "usage"))
    && IsInt(At(At(doc, "usage"), "input_tokens")) && IsInt(At(At(doc, "usage"), "output_tokens"))
    && Strings(At(doc, "error"), ["type", "message"])
  }

  function BlockIn(doc: Json): Option<P.BlockHead> {
    var b := At(doc, "content_block");
    if b.Obj? then Some(P.BlockHead(TextIn(At(b, "type")), TextIn(At(b, "id")), TextIn(At(b, "name")))) else None
  }

  function DeltaIn(doc: Json): P.Delta {
    var d := At(doc, "delta");
    P.Delta(TextIn(At(d, "type")), TextIn(At(d, "text")), TextIn(At(d, "partial_json")), TextIn(At(d, "stop_reason")))
  }

  function ErrorIn(doc: Json): Option<string> {
    var e := At(doc, "error");
    if e.Obj? then Some(TextIn(At(e, "message"))) else None
  }

  function EventIn(doc: Json): P.Event {
    P.Event(TextIn(At(doc, "type")), IntIn(At(doc, "index")), BlockIn(doc), DeltaIn(doc),
            IntIn(At(At(doc, "usage"), "input_tokens")), IntIn(At(At(doc, "usage"), "output_tokens")), ErrorIn(doc))
  }

  // ---------- The decoder ----------

  lemma BlockDecodes(doc: Json)
    requires IsStruct(doc)
    ensures P.DecodeBlock(FieldsOf(doc)).Ok? <==> Strings(At(doc, "content_block"), ["type", "id", "name"])
    ensures P.DecodeBlock(FieldsOf(doc)).Ok? ==> P.DecodeBlock(FieldsOf(doc)) == Ok(BlockIn(doc))
  {
    MemberView(doc, "content_block");
    if IsStruct(At(doc, "content_block")) {
      StringMembers(At(doc, "content_block"), ["type", "id", "name"]);
    }
  }

  lemma DeltaDecodes(doc: Json)
    requires IsStruct(doc)
    ensures P.DecodeDelta(FieldsOf(doc)).Ok? <==>
      Strings(At(doc, "delta"), ["type", "text", "partial_json", "stop_reason"])
    ensures P.DecodeDelta(FieldsOf(doc)).Ok? ==> P.DecodeDelta(FieldsOf(doc)) == Ok(DeltaIn(doc))
  {
    MemberView(doc, "delta");
    if IsStruct(At(doc, "delta")) {
      StringMembers(At(doc, "delta"), ["type", "text", "partial_json", "stop_reason"]);
    }
  }

  lemma ErrorDecodes(doc: Json)
    requires IsStruct(doc)
    ensures P.DecodeError(FieldsOf(doc)).Ok? <==> Strings(At(doc, "error"), ["type", "message"])
    ensures P.DecodeError(FieldsOf(doc)).Ok? ==> P.DecodeError(FieldsOf(doc)) == Ok(ErrorIn(doc))
  {
    MemberView(doc, "error");
    if IsStruct(At(doc, "error")) {
      StringMembers(At(doc, "error"), ["type", "message"]);
    }
  }

  /** Any document: the parser takes it exactly when its members have the right kinds, and reads each of them. */
  lemma EventDecodes(doc: Json)
    ensures P.DecodeEvent(doc).Ok? <==> EventOk(doc)
    ensures EventOk(doc) ==> P.DecodeEvent(doc) == Ok(EventIn(doc))
  {
    hide Strings, IntField, StrField, ObjField, P.DecodeBlock, P.DecodeDelta, P.DecodeError, BlockIn, DeltaIn, ErrorIn;
    StructView(doc);
    if IsStruct(doc) {
      MemberView(doc, "type");
      MemberView(doc, "index");
      MemberView(doc, "usage");
      BlockDecodes(doc);
      DeltaDecodes(doc);
      ErrorDecodes(doc);
      var usage := At(doc, "usage");
      if IsStruct(usage) {
        MemberView(usage, "input_tokens");
        MemberView(usage, "output_tokens");
      }
    }
  }
}
