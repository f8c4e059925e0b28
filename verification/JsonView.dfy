/** JSON documents seen by their members, for statements about decoding that do not go through the decoder. */
module JsonView {
  import opened Wrappers
  import opened Json

  /** A member of an object. A missing member and a member of anything else are null. */
  function At(j: Json, key: string): Json {
    if j.Obj? && key in j.fields then j.fields[key] else Null
  }

  function Member(j: Json, key: string): Option<Json> {
    if j.Obj? && key in j.fields then Some(j.fields[key]) else None
  }

  // ---------- What Go decodes without an error into a struct, string, int, bool, number or slice ----------

  predicate IsStruct(j: Json) { j.Null? || j.Obj? }

  predicate IsStr(j: Json) { j.Null? || j.Str? }

  predicate IsInt(j: Json) { j.Null? || j.Int? }

  predicate IsBool(j: Json) { j.Null? || j.Bool? }

  predicate IsNumber(j: Json) { j.Null? || j.Int? || j.Float? }

  predicate IsList(j: Json) { j.Null? || j.Arr? }

  /** A struct whose members of these names are strings. */
  predicate Strings(j: Json, keys: seq<string>) {
    IsStruct(j) && forall key :: key in keys ==> IsStr(At(j, key))
  }

  // ---------- And what it decodes to ----------

  function TextIn(j: Json): string { if j.Str? then j.s else "" }

  function IntIn(j: Json): int { if j.Int? then j.n else 0 }

  function BoolIn(j: Json): bool { j.Bool? && j.b }

  function ListIn(j: Json): seq<Json> { if j.Arr? then j.elems else [] }

  function OptIntIn(j: Json): Option<int> { if j.Int? then Some(j.n) else None }

  function OptNumberIn(j: Json): Option<Number> {
    match j case Int(n) => Some(Whole(n)) case Float(f) => Some(Part(f)) case _ => None
  }

  function FieldsOf(j: Json): Fields { if j.Obj? then j.fields else map[] }

  /** A member that is there only with something to say. */
  predicate Said(o: Fields, key: string, said: bool, value: Json) {
    if said then key in o && o[key] == value else key !in o
  }

  // ---------- The decoder against the view ----------

  lemma StructView(j: Json)
    ensures AsStruct(j) == if IsStruct(j) then Ok(FieldsOf(j)) else Err("expected an object")
  {
  }

  /** Every way of decoding a member reads what is at the member, and fails exactly on another kind. */
  lemma MemberView(j: Json, key: string)
    requires IsStruct(j)
    ensures StrField(FieldsOf(j), key) == if IsStr(At(j, key)) then Ok(TextIn(At(j, key))) else Err("expected a string")
    ensures IntField(FieldsOf(j), key) == if IsInt(At(j, key)) then Ok(IntIn(At(j, key)))
      else Err("expected an integer")
    ensures BoolField(FieldsOf(j), key) ==
      if IsBool(At(j, key)) then Ok(BoolIn(At(j, key))) else Err("expected a boolean")
    ensures OptIntField(FieldsOf(j), key) ==
      if IsInt(At(j, key)) then Ok(OptIntIn(At(j, key))) else Err("expected an integer")
    ensures OptNumberField(FieldsOf(j), key) ==
      if IsNumber(At(j, key)) then Ok(OptNumberIn(At(j, key))) else Err("expected a number")
    ensures ArrField(FieldsOf(j), key) ==
      if IsList(At(j, key)) then Ok(ListIn(At(j, key))) else Err("expected an array")
    ensures ObjField(FieldsOf(j), key) ==
      if IsStruct(At(j, key)) then Ok(FieldsOf(At(j, key))) else Err("expected an object")
    ensures OptObjField(FieldsOf(j), key) ==
      if !IsStruct(At(j, key)) then Err("expected an object")
      else if At(j, key).Obj? then Ok(Some(FieldsOf(At(j, key)))) else Ok(None)
    ensures AnyField(FieldsOf(j), key) == At(j, key)
    ensures StringIn(FieldsOf(j), key) == TextIn(At(j, key))
    ensures RawField(FieldsOf(j), key) == if key in FieldsOf(j) then Some(At(j, key)) else None
  {
  }

  lemma StringMembers(j: Json, keys: seq<string>)
    requires IsStruct(j)
    ensures forall key :: key in keys ==>
      StrField(FieldsOf(j), key) == if IsStr(At(j, key)) then Ok(TextIn(At(j, key))) else Err("expected a string")
  {
    forall key | key in keys {
      MemberView(j, key);
    }
  }

  /** Lists decode when every element does, to the values of the elements. */
  lemma {:induction false} ListView<A, T>(elems: seq<A>, decode: A -> Result<T>, ok: A -> bool, value: A -> T)
    requires forall e :: e in elems ==> (decode(e).Ok? <==> ok(e)) && (ok(e) ==> decode(e) == Ok(value(e)))
    ensures DecodeAll(elems, decode).Ok? <==> forall e :: e in elems ==> ok(e)
    ensures DecodeAll(elems, decode).Ok? ==> DecodeAll(elems, decode).value == Map(elems, value)
  {
    if |elems| == 0 {
    } else {
      var n := |elems| - 1;
      assert elems[n] in elems && forall e :: e in elems <==> e in elems[..n] || e == elems[n];
      ListView(elems[..n], decode, ok, value);
      assert Map(elems, value) == Map(elems[..n], value) + [value(elems[n])];
    }
  }
}
