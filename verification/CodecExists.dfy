/**
 A codec that satisfies `Codec.Valid`, so that what is proved under it is not proved of nothing. The text is not
 JSON's own but has the properties asked for: every value has its own text, and an object is one line in braces.
 */
module CodecExists {
  import opened Wrappers
  import opened Text
  import opened Json

  // ---------- A text for every value ----------

  function NumberText(n: int): string {
    Numeral(n) + "."
  }

  function CharsText(s: string): string {
    if |s| == 0 then "" else NumberText(s[0] as int) + CharsText(s[1..])
  }

  function StringText(s: string): string {
    NumberText(|s|) + CharsText(s)
  }

  /** The elements of a set in some order. */
  ghost function Listing(keys: set<string>): (r: seq<string>)
    ensures forall k :: k in r <==> k in keys
  {
    if keys == {} then [] else
    var k :| k in keys;
    [k] + Listing(keys - {k})
  }

  ghost function Printed(j: Json): string
    decreases j
  {
    match j
    case Null => "n"
    case Bool(b) => if b then "t" else "f"
    case Int(n) => "i" + NumberText(n)
    case Float(f) => "d" + (NumberText(f.mantissa) + NumberText(f.places))
    case Str(s) => "s" + StringText(s)
    case Arr(elems) => "[" + (NumberText(|elems|) + PrintedFrom(j, 0))
    case Obj(fields) =>
      var keys := Listing(fields.Keys);
      "{" + (NumberText(|keys|) + (PrintedFields(j, keys) + "}"))
  }

  /** The elements of an array from the i-th on. */
  ghost function PrintedFrom(j: Json, i: nat): string
    requires j.Arr? && i <= |j.elems|
    decreases j, |j.elems| - i
  {
    if i == |j.elems| then "" else Printed(j.elems[i]) + PrintedFrom(j, i + 1)
  }

  ghost function PrintedFields(j: Json, keys: seq<string>): string
    requires j.Obj? && forall k :: k in keys ==> k in j.fields
    decreases j, |keys|
  {
    if |keys| == 0 then "" else
    StringText(keys[0]) + (Printed(j.fields[keys[0]]) + PrintedFields(j, keys[1..]))
  }

  // ---------- No text is the beginning of another ----------

  lemma CutOff(a: string, x: string, b: string, y: string)
    requires a + x == b + y && |a| == |b|
    ensures a == b && x == y
  {
    assert (a + x)[..|a|] == a && (b + y)[..|a|] == b;
    assert (a + x)[|a|..] == x && (b + y)[|a|..] == y;
  }

  lemma NumberSplit(m: int, x: string, n: int, y: string)
    requires NumberText(m) + x == NumberText(n) + y
    ensures m == n && x == y
  {
    NumeralSign(m);
    NumeralSign(n);
    var s, t := NumberText(m) + x, NumberText(n) + y;
    var i, k := |Numeral(m)|, |Numeral(n)|;
    assert s[i] == '.' && t[k] == '.';
    assert forall d :: 0 <= d < i ==> s[d] == Numeral(m)[d];
    assert forall d :: 0 <= d < k ==> t[d] == Numeral(n)[d];
    CutOff(NumberText(m), x, NumberText(n), y);
    assert Numeral(m) == NumberText(m)[..i] && Numeral(n) == NumberText(n)[..k];
    NumeralInjective(m, n);
  }

  lemma Regroup(a: string, b: string, c: string)
    ensures (a + b) + c == a + (b + c)
  {
  }

  lemma {:induction false} CharsSplit(s: string, x: string, t: string, y: string)
    requires |s| == |t| && CharsText(s) + x == CharsText(t) + y
    ensures s == t && x == y
  {
    hide NumberText;
    if |s| > 0 {
      Regroup(NumberText(s[0] as int), CharsText(s[1..]), x);
      Regroup(NumberText(t[0] as int), CharsText(t[1..]), y);
      NumberSplit(s[0] as int, CharsText(s[1..]) + x, t[0] as int, CharsText(t[1..]) + y);
      CharsSplit(s[1..], x, t[1..], y);
      assert s == [s[0]] + s[1..] && t == [t[0]] + t[1..];
    } else {
      assert "" + x == x && "" + y == y;
    }
  }

  lemma StringSplit(s: string, x: string, t: string, y: string)
    requires StringText(s) + x == StringText(t) + y
    ensures s == t && x == y
  {
    Regroup(NumberText(|s|), CharsText(s), x);
    Regroup(NumberText(|t|), CharsText(t), y);
    NumberSplit(|s|, CharsText(s) + x, |t|, CharsText(t) + y);
    CharsSplit(s, x, t, y);
  }

  /** The first letter tells the kind of a value. */
  function Tag(j: Json): char {
    match j
    case Null => 'n'
    case Bool(b) => if b then 't' else 'f'
    case Int(_) => 'i'
    case Float(_) => 'd'
    case Str(_) => 's'
    case Arr(_) => '['
    case Obj(_) => '{'
  }

  lemma Tagged(j: Json)
    ensures Printed(j) == [Tag(j)] + Printed(j)[1..]
  {
  }

  lemma SameTag(a: Json, x: string, b: Json, y: string)
    requires Printed(a) + x == Printed(b) + y
    ensures Tag(a) == Tag(b) && Printed(a)[1..] + x == Printed(b)[1..] + y
  {
    hide Printed;
    Tagged(a);
    Tagged(b);
    var s, t := Printed(a) + x, Printed(b) + y;
    assert s[0] == Tag(a) && t[0] == Tag(b);
    assert s[1..] == Printed(a)[1..] + x && t[1..] == Printed(b)[1..] + y;
  }

  lemma NothingLeft(a: Json, x: string, b: Json, y: string)
    requires Tag(a) == Tag(b) && (a.Null? || a.Bool?) && Printed(a)[1..] + x == Printed(b)[1..] + y
    ensures a == b && x == y
  {
    assert Printed(a)[1..] == "" && Printed(b)[1..] == "";
    assert "" + x == x && "" + y == y;
  }

  lemma {:induction false} PrintedSplit(a: Json, x: string, b: Json, y: string)
    requires Printed(a) + x == Printed(b) + y
    ensures a == b && x == y
    decreases a
  {
    SameTag(a, x, b, y);
    match a
    case Null => NothingLeft(a, x, b, y);
    case Bool(_) => NothingLeft(a, x, b, y);
    case Int(m) => NumberSplit(m, x, b.n, y);
    case Float(f) =>
      Regroup(NumberText(f.mantissa), NumberText(f.places), x);
      Regroup(NumberText(b.f.mantissa), NumberText(b.f.places), y);
      NumberSplit(f.mantissa, NumberText(f.places) + x, b.f.mantissa, NumberText(b.f.places) + y);
      NumberSplit(f.places, x, b.f.places, y);
    case Str(s) => StringSplit(s, x, b.s, y);
    case Arr(_) => ArraySplit(a, x, b, y);
    case Obj(_) => ObjectSplit(a, x, b, y);
  }

  lemma {:induction false} ArraySplit(a: Json, x: string, b: Json, y: string)
    requires a.Arr? && b.Arr? && Printed(a)[1..] + x == Printed(b)[1..] + y
    ensures a == b && x == y
    decreases a, 1, 0
  {
    var m, n := |a.elems|, |b.elems|;
    assert Printed(a)[1..] == NumberText(m) + PrintedFrom(a, 0);
    assert Printed(b)[1..] == NumberText(n) + PrintedFrom(b, 0);
    hide Printed, PrintedFrom;
    Regroup(NumberText(m), PrintedFrom(a, 0), x);
    Regroup(NumberText(n), PrintedFrom(b, 0), y);
    NumberSplit(m, PrintedFrom(a, 0) + x, n, PrintedFrom(b, 0) + y);
    ElementsSplit(a, x, b, y, 0);
  }

  lemma {:induction false} ElementsSplit(a: Json, x: string, b: Json, y: string, i: nat)
    requires a.Arr? && b.Arr? && i <= |a.elems| == |b.elems|
    requires PrintedFrom(a, i) + x == PrintedFrom(b, i) + y
    ensures a.elems[i..] == b.elems[i..] && x == y
    decreases a, 0, |a.elems| - i
  {
    if i < |a.elems| {
      Regroup(Printed(a.elems[i]), PrintedFrom(a, i + 1), x);
      Regroup(Printed(b.elems[i]), PrintedFrom(b, i + 1), y);
      PrintedSplit(a.elems[i], PrintedFrom(a, i + 1) + x, b.elems[i], PrintedFrom(b, i + 1) + y);
      ElementsSplit(a, x, b, y, i + 1);
      assert a.elems[i..] == [a.elems[i]] + a.elems[i + 1..] && b.elems[i..] == [b.elems[i]] + b.elems[i + 1..];
    } else {
      assert "" + x == x && "" + y == y;
    }
  }

  lemma {:induction false} ObjectSplit(a: Json, x: string, b: Json, y: string)
    requires a.Obj? && b.Obj? && Printed(a)[1..] + x == Printed(b)[1..] + y
    ensures a == b && x == y
    decreases a, 1, 0
  {
    var k, l := Listing(a.fields.Keys), Listing(b.fields.Keys);
    assert Printed(a)[1..] == NumberText(|k|) + (PrintedFields(a, k) + "}");
    assert Printed(b)[1..] == NumberText(|l|) + (PrintedFields(b, l) + "}");
    hide Printed, PrintedFields, Listing;
    Regroup(NumberText(|k|), PrintedFields(a, k) + "}", x);
    Regroup(NumberText(|l|), PrintedFields(b, l) + "}", y);
    NumberSplit(|k|, (PrintedFields(a, k) + "}") + x, |l|, (PrintedFields(b, l) + "}") + y);
    Regroup(PrintedFields(a, k), "}", x);
    Regroup(PrintedFields(b, l), "}", y);
    FieldsSplit(a, k, "}" + x, b, l, "}" + y);
    CutOff("}", x, "}", y);
    assert a.fields.Keys == b.fields.Keys;
    assert a.fields == b.fields;
  }

  lemma {:induction false} FieldsSplit(a: Json, k: seq<string>, x: string, b: Json, l: seq<string>, y: string)
    requires a.Obj? && b.Obj? && |k| == |l|
    requires (forall s :: s in k ==> s in a.fields) && (forall s :: s in l ==> s in b.fields)
    requires PrintedFields(a, k) + x == PrintedFields(b, l) + y
    ensures k == l && x == y && forall s :: s in k ==> a.fields[s] == b.fields[s]
    decreases a, 0, |k|
  {
    if |k| > 0 {
      FieldSplit(a, k, x, b, l, y);
      FieldsSplit(a, k[1..], x, b, l[1..], y);
      assert k == [k[0]] + k[1..] && l == [l[0]] + l[1..];
    } else {
      assert "" + x == x && "" + y == y;
    }
  }

  lemma {:induction false} FieldSplit(a: Json, k: seq<string>, x: string, b: Json, l: seq<string>, y: string)
    requires a.Obj? && b.Obj? && |k| == |l| > 0
    requires (forall s :: s in k ==> s in a.fields) && (forall s :: s in l ==> s in b.fields)
    requires PrintedFields(a, k) + x == PrintedFields(b, l) + y
    ensures k[0] == l[0] && a.fields[k[0]] == b.fields[l[0]]
    ensures PrintedFields(a, k[1..]) + x == PrintedFields(b, l[1..]) + y
    decreases a, 0, 0
  {
    var v, u := Printed(a.fields[k[0]]), Printed(b.fields[l[0]]);
    var r, q := PrintedFields(a, k[1..]), PrintedFields(b, l[1..]);
    assert PrintedFields(a, k) == StringText(k[0]) + (v + r);
    assert PrintedFields(b, l) == StringText(l[0]) + (u + q);
    hide StringText;
    Regroup(StringText(k[0]), v + r, x);
    Regroup(StringText(l[0]), u + q, y);
    StringSplit(k[0], (v + r) + x, l[0], (u + q) + y);
    Regroup(v, r, x);
    Regroup(u, q, y);
    PrintedSplit(a.fields[k[0]], r + x, b.fields[l[0]], q + y);
  }

  // ---------- On one line ----------

  predicate OneLine(s: string) {
    '\n' !in s
  }

  lemma NumberOnOneLine(n: int)
    ensures OneLine(NumberText(n))
  {
    NumeralSign(n);
  }

  lemma {:induction false} CharsOnOneLine(s: string)
    ensures OneLine(CharsText(s))
  {
    if |s| == 0 {
    } else {
      NumberOnOneLine(s[0] as int);
      CharsOnOneLine(s[1..]);
    }
  }

  lemma StringOnOneLine(s: string)
    ensures OneLine(StringText(s))
  {
    NumberOnOneLine(|s|);
    CharsOnOneLine(s);
  }

  lemma {:induction false} PrintedOnOneLine(j: Json)
    ensures OneLine(Printed(j))
    decreases j
  {
    hide NumberText, StringText;
    match j
    case Null =>
    case Bool(_) =>
    case Int(n) => NumberOnOneLine(n);
    case Float(f) =>
      NumberOnOneLine(f.mantissa);
      NumberOnOneLine(f.places);
    case Str(s) => StringOnOneLine(s);
    case Arr(elems) =>
      NumberOnOneLine(|elems|);
      ElementsOnOneLine(j, 0);
    case Obj(fields) =>
      var keys := Listing(fields.Keys);
      NumberOnOneLine(|keys|);
      FieldsOnOneLine(j, keys);
  }

  lemma {:induction false} ElementsOnOneLine(j: Json, i: nat)
    requires j.Arr? && i <= |j.elems|
    ensures OneLine(PrintedFrom(j, i))
    decreases j, |j.elems| - i
  {
    if i < |j.elems| {
      PrintedOnOneLine(j.elems[i]);
      ElementsOnOneLine(j, i + 1);
    }
  }

  lemma {:induction false} FieldsOnOneLine(j: Json, keys: seq<string>)
    requires j.Obj? && forall k :: k in keys ==> k in j.fields
    ensures OneLine(PrintedFields(j, keys))
    decreases j, |keys|
  {
    hide StringText;
    if |keys| == 0 {
    } else {
      StringOnOneLine(keys[0]);
      PrintedOnOneLine(j.fields[keys[0]]);
      FieldsOnOneLine(j, keys[1..]);
    }
  }

  // ---------- The codec ----------

  ghost function Parsed(s: string): Option<Json> {
    if exists j :: Printed(j) == s then
      var j :| Printed(j) == s;
      Some(j)
    else None
  }

  lemma ParsedPrinted(j: Json)
    ensures Parsed(Printed(j)) == Some(j)
  {
    var k := Parsed(Printed(j)).value;
    PrintedSplit(k, "", j, "");
  }

  lemma PrintedObject(j: Json)
    ensures Printed(j) != ""
    ensures j.Obj? ==> IsObjectText(Printed(j))
  {
    PrintedOnOneLine(j);
    if j.Obj? {
      var keys := Listing(j.fields.Keys);
      var s := Printed(j);
      assert s[|s| - 1] == '}';
    }
  }

  /** There is a valid codec. */
  lemma ValidCodec() returns (codec: Codec)
    ensures codec.Valid()
  {
    codec := Codec(j => Printed(j), s => Parsed(s));
    forall j: Json
      ensures codec.dec(codec.enc(j)) == Some(j) && codec.enc(j) != "" && (j.Obj? ==> IsObjectText(codec.enc(j)))
    {
      ParsedPrinted(j);
      PrintedObject(j);
    }
  }
}
