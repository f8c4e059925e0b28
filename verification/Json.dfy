/**
 The JSON values that cross the wire, and the part of Go's struct decoding that the protocol files rely on:
 an absent or null member leaves the zero value in place, and a member of another kind is an error.
 JSON text is abstracted by a codec, a pair of functions between values and text.
 */
module Json {
  import opened Wrappers

  /** The decimal mantissa / 10^places. */
  datatype Scaled = Scaled(mantissa: int, places: nat)

  /** A decimal in lowest terms that is not an integer. Every finite float64 is one of these or an integer. */
  type Fraction = d: Scaled | d.places > 0 && d.mantissa % 10 != 0 witness Scaled(5, 1)

  datatype Number = Whole(n: int) | Part(f: Fraction)

  datatype Json =
    | Null
    | Bool(b: bool)
    | Int(n: int)
    | Float(f: Fraction)
    | Str(s: string)
    | Arr(elems: seq<Json>)
    | Obj(fields: map<string, Json>)

  type Fields = map<string, Json>

  predicate Absent(o: Fields, key: string) {
    key !in o || o[key].Null?
  }

  /** A member decoded into a Go string. */
  function StrField(o: Fields, key: string): Result<string> {
    if Absent(o, key) then Ok("") else
    if o[key].Str? then Ok(o[key].s) else Err("expected a string")
  }

  /** A member decoded into a Go int. */
  function IntField(o: Fields, key: string): Result<int> {
    if Absent(o, key) then Ok(0) else
    if o[key].Int? then Ok(o[key].n) else Err("expected an integer")
  }

  /** A member decoded into a Go bool. */
  function BoolField(o: Fields, key: string): Result<bool> {
    if Absent(o, key) then Ok(false) else
    if o[key].Bool? then Ok(o[key].b) else Err("expected a boolean")
  }

  /** A member decoded into a *int. */
  function OptIntField(o: Fields, key: string): Result<Option<int>> {
    if Absent(o, key) then Ok(None) else
    if o[key].Int? then Ok(Some(o[key].n)) else Err("expected an integer")
  }

  /** A member decoded into a *float64. */
  function OptNumberField(o: Fields, key: string): Result<Option<Number>> {
    if Absent(o, key) then Ok(None) else
    if o[key].Int? then Ok(Some(Whole(o[key].n))) else
    if o[key].Float? then Ok(Some(Part(o[key].f))) else Err("expected a number")
  }

  /** A member decoded into a struct; absent and null give a struct of zero values. */
  function ObjField(o: Fields, key: string): Result<Fields> {
    if Absent(o, key) then Ok(map[]) else
    if o[key].Obj? then Ok(o[key].fields) else Err("expected an object")
  }

  /** A member decoded into a pointer to a struct. */
  function OptObjField(o: Fields, key: string): Result<Option<Fields>> {
    if Absent(o, key) then Ok(None) else
    if o[key].Obj? then Ok(Some(o[key].fields)) else Err("expected an object")
  }

  /** A member decoded into a slice. */
  function ArrField(o: Fields, key: string): Result<seq<Json>> {
    if Absent(o, key) then Ok([]) else
    if o[key].Arr? then Ok(o[key].elems) else Err("expected an array")
  }

  /** A member decoded into `any`: absent and null are both nil. */
  function AnyField(o: Fields, key: string): Json {
    if key in o then o[key] else Null
  }

  function Entry(o: Fields, key: string): Option<Json> {
    if key in o then Some(o[key]) else None
  }

  /** A member decoded into a json.RawMessage: only an absent member leaves it empty. */
  function RawField(o: Fields, key: string): Option<Json> {
    Entry(o, key)
  }

  /** A type assertion to string: anything else gives the empty string. */
  function StringIn(o: Fields, key: string): string {
    if key in o && o[key].Str? then o[key].s else ""
  }

  /** Decodes a value into a struct: null leaves the zero values. */
  function AsStruct(doc: Json): Result<Fields> {
    if doc.Null? then Ok(map[]) else
    if doc.Obj? then Ok(doc.fields) else Err("expected an object")
  }

  /** Decodes or converts elements in order; the first failure is the result. */
  function DecodeAll<A, T>(elems: seq<A>, decode: A -> Result<T>): Result<seq<T>> {
    if |elems| == 0 then Ok([]) else
    var init :- DecodeAll(elems[..|elems| - 1], decode);
    var last :- decode(elems[|elems| - 1]);
    Ok(init + [last])
  }

  /** Elements that each decode to a known value decode together to the sequence of those values. */
  lemma {:induction false} DecodeAllOf<A, T>(elems: seq<A>, decode: A -> Result<T>, values: seq<T>)
    requires |elems| == |values|
    requires forall i :: 0 <= i < |elems| ==> decode(elems[i]) == Ok(values[i])
    ensures DecodeAll(elems, decode) == Ok(values)
  {
    if |elems| > 0 {
      var n := |elems| - 1;
      DecodeAllOf(elems[..n], decode, values[..n]);
      assert values == values[..n] + [values[n]];
    } else {
      assert values == [];
    }
  }

  /** The failure reported is that of the first element that fails. */
  lemma {:induction false} FirstError<A, T>(elems: seq<A>, decode: A -> Result<T>, i: nat)
    requires i < |elems| && DecodeAll(elems[..i], decode).Ok? && decode(elems[i]).Err?
    ensures DecodeAll(elems, decode) == Err(decode(elems[i]).error)
  {
    var init := elems[..|elems| - 1];
    if i < |init| {
      assert init[..i] == elems[..i];
      FirstError(init, decode, i);
    }
  }

  /** A success decoded every element. */
  lemma {:induction false} DecodeAllEach<A, T>(elems: seq<A>, decode: A -> Result<T>)
    requires DecodeAll(elems, decode).Ok?
    ensures |DecodeAll(elems, decode).value| == |elems|
    ensures forall i :: 0 <= i < |elems| ==> decode(elems[i]) == Ok(DecodeAll(elems, decode).value[i])
  {
    if |elems| == 0 {
    } else {
      DecodeAllEach(elems[..|elems| - 1], decode);
    }
  }

  // ---------- Printing ----------

  /** A member that is left out when there is nothing to say. */
  function Put(o: Fields, key: string, value: Option<Json>): (r: Fields)
    ensures Entry(r, key) == if value.Some? then value else Entry(o, key)
    ensures forall k :: k != key ==> Entry(r, k) == Entry(o, k)
  {
    if value.None? then o else o[key := value.value]
  }

  /** `omitempty` on a string, an interface value, a list, a bool, and on pointers to numbers. */
  function OmitStr(s: string): Option<Json> {
    if s == "" then None else Some(Str(s))
  }

  function OmitAny(j: Json): Option<Json> {
    if j.Null? then None else Some(j)
  }

  function OmitArr(elems: seq<Json>): Option<Json> {
    if elems == [] then None else Some(Arr(elems))
  }

  function OmitBool(b: bool): Option<Json> {
    if b then Some(Bool(true)) else None
  }

  function OmitNumber(n: Option<Number>): Option<Json> {
    if n.None? then None else Some(NumberJson(n.value))
  }

  function OmitInt(n: Option<int>): Option<Json> {
    if n.None? then None else Some(Int(n.value))
  }

  /** A JSON number that holds a float64: Go prints an integral float without a fraction. */
  function NumberJson(n: Number): Json {
    match n
    case Whole(i) => Int(i)
    case Part(f) => Float(f)
  }

  /** Marks the end of an OpenAI stream in place of a JSON value. */
  const DONE_MARKER := "[DONE]"

  /** Text that one SSE `data:` line carries unchanged: one line, nothing for TrimSpace to cut, not the end marker. */
  predicate IsObjectText(s: string) {
    && |s| >= 2 && s[0] == '{' && s[|s| - 1] == '}'
    && '\n' !in s
  }

  /**
   JSON text encoding, as json.Marshal and json.Unmarshal provide it. `Valid` is what the gateway relies on:
   decoding inverts encoding, no text is empty, and an object is printed on one line between braces.
   */
  datatype Codec = Codec(enc: Json -> string, dec: string -> Option<Json>) {
    ghost predicate Valid() {
      && (forall j: Json :: dec(enc(j)) == Some(j) && enc(j) != "")
      && (forall j: Json :: j.Obj? ==> IsObjectText(enc(j)))
    }
  }
}
