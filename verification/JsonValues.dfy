/**
 JSON values as the TypeScript code sees them. An object is the list of its own
 entries in enumeration order, so that `Object.keys` is a function of the value.
 */
module JsonValues {
  import opened Options

  datatype Json =
    | Null
    | Bool(b: bool)
    | Num(n: real)
    | Str(s: string)
    | Arr(items: seq<Json>)
    | Obj(fields: seq<Field>)

  datatype Field = Field(key: string, value: Json)

  predicate Has(fields: seq<Field>, key: string) {
    exists f :: f in fields && f.key == key
  }

  /** Property read. */
  function Get(fields: seq<Field>, key: string): (r: Option<Json>)
    ensures r.Some? ==> Field(key, r.value) in fields
    ensures r.Some? <==> Has(fields, key)
  {
    if fields == [] then None
    else if fields[0].key == key then assert fields[0] == Field(key, fields[0].value); Some(fields[0].value)
    else
      var r := Get(fields[1..], key);
      assert r.None? ==> forall f :: f in fields && f.key == key ==> f == fields[0] || f in fields[1..];
      r
  }

  /** Property assignment: replaces an own property in place, or appends a new one. */
  function Put(fields: seq<Field>, key: string, value: Json): seq<Field> {
    if fields == [] then [Field(key, value)]
    else if fields[0].key == key then [Field(key, value)] + fields[1..]
    else [fields[0]] + Put(fields[1..], key, value)
  }

  /** The `delete` operator. */
  function Remove(fields: seq<Field>, key: string): seq<Field> {
    if fields == [] then []
    else if fields[0].key == key then fields[1..]
    else [fields[0]] + Remove(fields[1..], key)
  }

  /** The own keys, as an array of JSON strings. */
  function KeyStrings(fields: seq<Field>): (r: seq<Json>)
    ensures |r| == |fields|
    ensures forall i | 0 <= i < |fields| :: r[i] == Str(fields[i].key)
  {
    seq(|fields|, i requires 0 <= i < |fields| => Str(fields[i].key))
  }

  predicate DistinctKeys(fields: seq<Field>) {
    forall i, j | 0 <= i < j < |fields| :: fields[i].key != fields[j].key
  }

  /** What every value built by JSON.parse satisfies: no object repeats a key. */
  predicate Parsed(v: Json) {
    match v
    case Arr(items) => forall i | 0 <= i < |items| :: Parsed(items[i])
    case Obj(fields) => DistinctKeys(fields) && forall i | 0 <= i < |fields| :: Parsed(fields[i].value)
    case _ => true
  }

  lemma {:induction false} GetPut(fields: seq<Field>, key: string, value: Json, other: string)
    ensures Get(Put(fields, key, value), other) == if other == key then Some(value) else Get(fields, other)
  {
    if fields != [] && fields[0].key != key {
      GetPut(fields[1..], key, value, other);
    }
  }

  lemma {:induction false} PutKeepsOthers(fields: seq<Field>, key: string, value: Json, f: Field)
    ensures f.key != key ==> (f in Put(fields, key, value) <==> f in fields)
    ensures Field(key, value) in Put(fields, key, value)
  {
    if fields != [] && fields[0].key != key {
      PutKeepsOthers(fields[1..], key, value, f);
      assert fields == [fields[0]] + fields[1..];
    } else if fields != [] {
      assert fields == [fields[0]] + fields[1..];
    }
  }

  lemma {:induction false} PutSame(fields: seq<Field>, key: string, value: Json)
    requires Get(fields, key) == Some(value)
    ensures Put(fields, key, value) == fields
  {
    if fields[0].key != key {
      PutSame(fields[1..], key, value);
      assert fields == [fields[0]] + fields[1..];
    } else {
      assert Field(key, value) == fields[0] && fields == [fields[0]] + fields[1..];
    }
  }

  lemma {:induction false} PutNew(fields: seq<Field>, key: string, value: Json)
    ensures !Has(fields, key) ==> Put(fields, key, value) == fields + [Field(key, value)]
  {
    if fields != [] {
      assert forall f | f in fields[1..] :: f in fields;
      PutNew(fields[1..], key, value);
    }
  }
}
