/** JSON values, whose objects have no member order, and their canonical text: members sorted by
    key, as the audit log hashes them and as the capability journal compares them. */
module CanonicalJson {
  import opened Options
  import opened Json

  datatype Value =
    | Null
    | Bool(b: bool)
    | Number(lexeme: NumberText)
    | Text(text: string)
    | Array(items: seq<Value>)
    | Object(fields: map<string, Value>)

  // ----- key order: Array.prototype.sort compares UTF-16 code units -----

  /** Orders characters as their UTF-16 encodings: supplementary characters start with a surrogate
      and so stand between U+D7FF and U+E000. */
  function Utf16Rank(c: char): int {
    var code := c as int;
    if code < 0xD800 then code else if code >= 0x1_0000 then code - 0x1_0000 + 0xD800 else code + 0x10_0000
  }

  predicate Before(a: string, b: string) {
    if b == [] then false
    else if a == [] then true
    else if a[0] == b[0] then Before(a[1..], b[1..])
    else Utf16Rank(a[0]) < Utf16Rank(b[0])
  }

  lemma {:induction false} BeforeIsTotal(a: string, b: string)
    ensures a == b || Before(a, b) || Before(b, a)
    ensures !(Before(a, b) && Before(b, a)) && (a == b ==> !Before(a, b))
  {
    if a != [] && b != [] && a[0] == b[0] {
      BeforeIsTotal(a[1..], b[1..]);
      assert a == [a[0]] + a[1..] && b == [b[0]] + b[1..];
    }
  }

  lemma {:induction false} BeforeIsTransitive(a: string, b: string, c: string)
    requires Before(a, b) && Before(b, c)
    ensures Before(a, c)
  {
    if a != [] && a[0] == b[0] == c[0] { BeforeIsTransitive(a[1..], b[1..], c[1..]); }
  }

  predicate IsLeast(k: string, keys: set<string>) {
    k in keys && forall j :: j in keys && j != k ==> Before(k, j)
  }

  lemma {:induction false} LeastExists(keys: set<string>) returns (k: string)
    requires keys != {}
    ensures IsLeast(k, keys)
    decreases |keys|
  {
    k :| k in keys;
    var others := keys - {k};
    if others != {} {
      var j := LeastExists(others);
      BeforeIsTotal(k, j);
      if Before(j, k) {
        k := j;
      } else {
        forall i | i in others && i != j ensures Before(k, i) { BeforeIsTransitive(k, j, i); }
      }
    }
  }

  function SortedKeys(keys: set<string>): seq<string>
    decreases |keys|
  {
    if keys == {} then []
    else
      LeastIsUnique(keys);
      var k :| k in keys && IsLeast(k, keys);
      [k] + SortedKeys(keys - {k})
  }

  lemma LeastIsUnique(keys: set<string>)
    requires keys != {}
    ensures exists k :: k in keys && IsLeast(k, keys)
    ensures forall j, k :: IsLeast(j, keys) && IsLeast(k, keys) ==> j == k
  {
    var least := LeastExists(keys);
    forall j, k | IsLeast(j, keys) && IsLeast(k, keys) ensures j == k { BeforeIsTotal(j, k); }
  }

  lemma {:induction false} SortedKeysAreSorted(keys: set<string>)
    ensures forall k :: k in SortedKeys(keys) <==> k in keys
    ensures forall i, j :: 0 <= i < j < |SortedKeys(keys)| ==> Before(SortedKeys(keys)[i], SortedKeys(keys)[j])
    decreases |keys|
  {
    if keys != {} {
      var sorted := SortedKeys(keys);
      var k := sorted[0];
      LeastIsUnique(keys);
      assert IsLeast(k, keys);
      var rest := SortedKeys(keys - {k});
      assert sorted == [k] + rest;
      SortedKeysAreSorted(keys - {k});
      forall i, j | 0 <= i < j < |sorted| ensures Before(sorted[i], sorted[j]) {
        assert sorted[j] == rest[j-1] && sorted[j] in rest;
        if i > 0 { assert sorted[i] == rest[i-1]; }
      }
    }
  }

  // ----- values and documents -----

  /** The document that the canonical printer writes. */
  function ToDoc(v: Value): Doc
    decreases v, 1, 0
  {
    match v
    case Null => DNull
    case Bool(b) => DBool(b)
    case Number(lexeme) => DNumber(lexeme)
    case Text(text) => DText(text)
    case Array(items) => DArray(ItemDocs(items))
    case Object(fields) =>
      SortedKeysAreSorted(fields.Keys);
      DObject(FieldDocs(v, SortedKeys(fields.Keys)))
  }

  function ItemDocs(items: seq<Value>): Docs
    decreases items, 0, 0
  {
    if items == [] then NoDocs else MoreDocs(ToDoc(items[0]), ItemDocs(items[1..]))
  }

  function FieldDocs(v: Value, keys: seq<string>): Fields
    requires v.Object? && forall k :: k in keys ==> k in v.fields
    decreases v, 0, |keys|
  {
    if keys == [] then NoFields else MoreFields(keys[0], ToDoc(v.fields[keys[0]]), FieldDocs(v, keys[1..]))
  }

  function CanonicalText(v: Value): string {
    Print(ToDoc(v))
  }

  /** What JSON.parse builds from a document: of repeated keys the last one wins. */
  function FromDoc(d: Doc): Value {
    match d
    case DNull => Null
    case DBool(b) => Bool(b)
    case DNumber(lexeme) => Number(lexeme)
    case DText(text) => Text(text)
    case DArray(items) => Array(ItemsOf(items))
    case DObject(fields) => Object(FieldsOf(fields))
  }

  function ItemsOf(items: Docs): seq<Value> {
    match items
    case NoDocs => []
    case MoreDocs(head, tail) => [FromDoc(head)] + ItemsOf(tail)
  }

  function FieldsOf(fields: Fields): map<string, Value> {
    match fields
    case NoFields => map[]
    case MoreFields(key, value, tail) => map[key := FromDoc(value)] + FieldsOf(tail)
  }

  function JsonParse(text: string): Option<Value> {
    var parsed := ParseDoc(text);
    if parsed.Some? && parsed.value.1 == [] then Some(FromDoc(parsed.value.0)) else None
  }

  lemma {:induction false} FromToDoc(v: Value)
    ensures FromDoc(ToDoc(v)) == v
    decreases v, 1, 0
  {
    match v
    case Array(items) => FromItemDocs(items);
    case Object(fields) =>
      var keys := SortedKeys(fields.Keys);
      SortedKeysAreSorted(fields.Keys);
      forall i, j | 0 <= i < j < |keys| ensures keys[i] != keys[j] { BeforeIsTotal(keys[i], keys[j]); }
      FromFieldDocs(v, keys);
      assert FieldsOf(FieldDocs(v, keys)) == fields;
    case _ =>
  }

  lemma {:induction false} FromItemDocs(items: seq<Value>)
    ensures ItemsOf(ItemDocs(items)) == items
    decreases items, 0, 0
  {
    if items != [] {
      FromToDoc(items[0]);
      FromItemDocs(items[1..]);
    }
  }

  lemma {:induction false} FromFieldDocs(v: Value, keys: seq<string>)
    requires v.Object? && (forall k :: k in keys ==> k in v.fields)
    requires forall i, j :: 0 <= i < j < |keys| ==> keys[i] != keys[j]
    ensures FieldsOf(FieldDocs(v, keys)) == map k | k in keys :: v.fields[k]
    decreases v, 0, |keys|
  {
    if keys != [] {
      FromToDoc(v.fields[keys[0]]);
      FromFieldDocs(v, keys[1..]);
      assert keys[0] !in keys[1..];
      assert forall k :: k in keys <==> k == keys[0] || k in keys[1..];
    }
  }

  /** Parsing the canonical text gives the value back, so a stored row rehashes to the same text. */
  lemma CanonicalRoundTrip(v: Value)
    ensures JsonParse(CanonicalText(v)) == Some(v)
  {
    ParsePrinted(ToDoc(v), []);
    FromToDoc(v);
  }

  /** Two values have the same canonical text only if they are the same up to member order. */
  lemma CanonicalIsInjective(v: Value, w: Value)
    requires CanonicalText(v) == CanonicalText(w)
    ensures v == w
  {
    CanonicalRoundTrip(v);
    CanonicalRoundTrip(w);
  }
}
