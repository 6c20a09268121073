/**
 The normalizer as the program runs it: a copy of the node is filled in place, keyword
 after keyword. Each method is proved against the entry-by-entry rewriting of SchemaNormalizer.
 */
module SchemaRecords {
  import opened Options
  import opened JsonValues
  import opened SchemaNormalizer

  /** A plain JavaScript object, with the own properties in enumeration order. */
  class Record {
    var entries: seq<Field>

    /** `{}` or `{ ...source }`. */
    constructor (source: seq<Field>)
      ensures entries == source
    {
      entries := source;
    }

    /** `this[key] = value`; for `__proto__` the setter runs and no own property appears. */
    method Assign(key: string, value: Json)
      modifies this
      ensures entries == if key == PROTO then old(entries) else Put(old(entries), key, value)
    {
      if key != PROTO {
        entries := Put(entries, key, value);
      }
    }

    /** `delete this[key]`. */
    method Delete(key: string)
      modifies this
      ensures entries == Remove(old(entries), key)
    {
      entries := Remove(entries, key);
    }
  }

  method NormalizeSchemaNode(node: Json) returns (r: Json)
    requires Parsed(node)
    ensures r == Normalize(node)
    decreases node, 3
  {
    if !node.Obj? {
      if node.Arr? {
        var items := NormalizeItems(node.items);
        r := Arr(items);
      } else {
        r := node;
      }
      return;
    }

    var fields := node.fields;
    var normalized := new Record(fields);
    NormalizeChildren(normalized, fields);
    NormalizeBranches(normalized, fields);
    NormalizeDefinitions(normalized, fields);
    CompleteObject(normalized, fields);
    r := Obj(normalized.entries);
  }

  /** `properties`, `items` and `prefixItems`. */
  method NormalizeChildren(normalized: Record, fields: seq<Field>)
    requires Parsed(Obj(fields)) && normalized.entries == fields
    modifies normalized
    ensures normalized.entries == RewriteSome(fields, {"properties", "items", "prefixItems"})
    decreases fields, 4
  {
    RewriteNone(fields);
    NormalizeSchemaMapKeyword(normalized, fields, "properties");
    AfterKeyword(fields, {}, "properties", {"properties"});
    NormalizeItemsKeyword(normalized, fields);
    AfterKeyword(fields, {"properties"}, "items", {"properties", "items"});
    NormalizePrefixItemsKeyword(normalized, fields);
    AfterKeyword(fields, {"properties", "items"}, "prefixItems", {"properties", "items", "prefixItems"});
  }

  method NormalizeItemsKeyword(normalized: Record, fields: seq<Field>)
    requires Parsed(Obj(fields))
    modifies normalized
    ensures normalized.entries == Step(old(normalized.entries), fields, "items")
    decreases fields, 3
  {
    if Has(fields, "items") {
      var source := Get(fields, "items").value;
      assert Field("items", source) in fields;
      var items := NormalizeSchemaNode(source);
      normalized.Assign("items", items);
    }
  }

  method NormalizePrefixItemsKeyword(normalized: Record, fields: seq<Field>)
    requires Parsed(Obj(fields))
    modifies normalized
    ensures normalized.entries == Step(old(normalized.entries), fields, "prefixItems")
    decreases fields, 3
  {
    match Get(fields, "prefixItems") {
      case Some(Arr(source)) =>
        var items := NormalizeItems(source);
        normalized.Assign("prefixItems", Arr(items));
      case _ =>
    }
  }

  method NormalizeBranches(normalized: Record, fields: seq<Field>)
    requires Parsed(Obj(fields)) && normalized.entries == RewriteSome(fields, {"properties", "items", "prefixItems"})
    modifies normalized
    ensures normalized.entries == RewriteSome(fields, {"properties", "items", "prefixItems", "oneOf", "anyOf"})
    decreases fields, 3
  {
    AfterBranches(fields);
    NormalizeSchemaArrayKeyword(normalized, fields, "oneOf");
    NormalizeSchemaArrayKeyword(normalized, fields, "anyOf");
    NormalizeSchemaArrayKeyword(normalized, fields, "allOf");
  }

  method NormalizeDefinitions(normalized: Record, fields: seq<Field>)
    requires Parsed(Obj(fields))
    requires normalized.entries == RewriteSome(fields, {"properties", "items", "prefixItems", "oneOf", "anyOf"})
    modifies normalized
    ensures normalized.entries == NormalizeEntries(fields)
    decreases fields, 3
  {
    NormalizeSchemaMapKeyword(normalized, fields, "$defs");
    AfterKeyword(fields, {"properties", "items", "prefixItems", "oneOf", "anyOf"}, "$defs",
                 {"properties", "items", "prefixItems", "oneOf", "anyOf", "$defs"});
    NormalizeSchemaMapKeyword(normalized, fields, "definitions");
    AfterKeyword(fields, {"properties", "items", "prefixItems", "oneOf", "anyOf", "$defs"}, "definitions",
                 {"properties", "items", "prefixItems", "oneOf", "anyOf", "$defs", "definitions"});
    RewriteAllKeywords(fields);
  }

  /** The tail of normalizeSchemaNode: closing the object and requiring every property. */
  method CompleteObject(normalized: Record, fields: seq<Field>)
    modifies normalized
    ensures normalized.entries == Complete(fields, old(normalized.entries))
  {
    if Get(fields, "type") != Some(Str("object")) && !Has(fields, "properties") {
      return;
    }
    if !Has(normalized.entries, "additionalProperties") {
      normalized.Assign("additionalProperties", Bool(false));
    }
    match Get(normalized.entries, "properties") {
      case Some(Obj(properties)) =>
        var propertyKeys := KeyStrings(properties);
        if |propertyKeys| == 0 {
          return;
        }
        normalized.Assign("required", Arr(propertyKeys));
      case _ =>
    }
  }

  method NormalizeItems(items: seq<Json>) returns (r: seq<Json>)
    requires forall i | 0 <= i < |items| :: Parsed(items[i])
    ensures r == NormalizeAll(items)
    decreases items, 4
  {
    r := [];
    for i := 0 to |items|
      invariant |r| == i && forall j | 0 <= j < i :: r[j] == Normalize(items[j])
    {
      var item := NormalizeSchemaNode(items[i]);
      r := r + [item];
    }
  }

  method NormalizeSchemaArrayKeyword(target: Record, source: seq<Field>, key: string)
    requires Parsed(Obj(source)) && key in {"oneOf", "anyOf", "allOf"}
    modifies target
    ensures target.entries == if key == "allOf" then old(target.entries) else Step(old(target.entries), source, key)
    decreases source, 2
  {
    StepOnBranches(target.entries, source, key);
    match Get(source, key) {
      case Some(Arr(value)) =>
        if key == "allOf" {
          return;
        }
        var mapped := NormalizeItems(value);
        var kept := KeepExpressible(mapped);
        if |kept| == 0 {
          target.Delete(key);
        } else {
          target.Assign(key, Arr(kept));
        }
      case _ =>
    }
  }

  method KeepExpressible(items: seq<Json>) returns (kept: seq<Json>)
    ensures kept == DropRequiredOnly(items)
  {
    kept := [];
    for i := 0 to |items|
      invariant kept == DropRequiredOnly(items[..i])
    {
      assert items[..i + 1] == items[..i] + [items[i]];
      DropRequiredOnlyStep(items[..i], items[i]);
      assert DropRequiredOnly(items[..i + 1]) == kept + if RequiredOnly(items[i]) then [] else [items[i]];
      if !RequiredOnly(items[i]) {
        kept := kept + [items[i]];
      }
    }
    assert items[..|items|] == items;
  }

  /** `$defs` and `definitions`; the code for `properties` is the same loop. */
  method NormalizeSchemaMapKeyword(target: Record, source: seq<Field>, key: string)
    requires Parsed(Obj(source)) && key in {"properties", "$defs", "definitions"}
    modifies target
    ensures target.entries == Step(old(target.entries), source, key)
    decreases source, 2
  {
    StepOnMap(target.entries, source, key);
    match Get(source, key) {
      case Some(Obj(value)) =>
        assert Field(key, Obj(value)) in source;
        var normalizedMap := NormalizeEach(value);
        target.Assign(key, Obj(normalizedMap));
      case _ =>
    }
  }

  /** The loop of `normalizeSchemaMapKeyword`. */
  method NormalizeEach(value: seq<Field>) returns (r: seq<Field>)
    requires Parsed(Obj(value))
    ensures r == NormalizeMap(value)
    decreases value, 4
  {
    var normalizedMap := new Record([]);
    for i := 0 to |value|
      invariant normalizedMap.entries == NormalizeMap(value[..i])
    {
      NormalizeMapStep(value, i);
      var schema := NormalizeSchemaNode(value[i].value);
      normalizedMap.Assign(value[i].key, schema);
    }
    assert value[..|value|] == value;
    r := normalizedMap.entries;
  }

  // ----- a node of which some keywords are rewritten already

  const KEYWORDS := {"properties", "items", "prefixItems", "oneOf", "anyOf", "$defs", "definitions"}

  /** The keyword has the shape that makes the code assign or delete it. */
  predicate Handled(f: Field) {
    if f.key == "items" then true
    else if f.key in {"properties", "$defs", "definitions"} then f.value.Obj?
    else f.key in {"prefixItems", "oneOf", "anyOf"} && f.value.Arr?
  }

  function Replace(entries: seq<Field>, key: string, e: seq<Field>): seq<Field> {
    if e == [] then Remove(entries, key) else Put(entries, key, e[0].value)
  }

  /** The effect of one keyword of `source` on the record being filled. */
  function Step(entries: seq<Field>, source: seq<Field>, key: string): seq<Field> {
    match Get(source, key)
    case None => entries
    case Some(v) => if Handled(Field(key, v)) then Replace(entries, key, NormalizeEntry(Field(key, v))) else entries
  }

  lemma StepOnMap(entries: seq<Field>, source: seq<Field>, key: string)
    requires key in {"properties", "$defs", "definitions"}
    ensures var v := Get(source, key);
            Step(entries, source, key) ==
            if v.Some? && v.value.Obj? then Put(entries, key, Obj(NormalizeMap(v.value.fields))) else entries
  {
  }

  lemma StepOnBranches(entries: seq<Field>, source: seq<Field>, key: string)
    requires key in {"oneOf", "anyOf", "allOf"}
    ensures key != "allOf" ==>
              Step(entries, source, key) ==
              match Get(source, key)
              case Some(Arr(items)) =>
                var kept := DropRequiredOnly(NormalizeAll(items));
                if kept == [] then Remove(entries, key) else Put(entries, key, Arr(kept))
              case _ => entries
  {
  }

  function RewriteSome(fields: seq<Field>, keys: set<string>): seq<Field> {
    if fields == [] then []
    else (if fields[0].key in keys then NormalizeEntry(fields[0]) else [fields[0]]) + RewriteSome(fields[1..], keys)
  }

  lemma {:induction false} RewriteNone(fields: seq<Field>)
    ensures RewriteSome(fields, {}) == fields
  {
    if fields != [] {
      RewriteNone(fields[1..]);
    }
  }

  lemma {:induction false} RewriteAllKeywords(fields: seq<Field>)
    ensures RewriteSome(fields, KEYWORDS) == NormalizeEntries(fields)
  {
    if fields != [] {
      RewriteAllKeywords(fields[1..]);
    }
  }

  /** Because keys are distinct, handling a keyword in place rewrites just its entry. */
  lemma {:induction false} AfterKeyword(fields: seq<Field>, keys: set<string>, key: string, keys': set<string>)
    requires DistinctKeys(fields) && key !in keys && keys' == keys + {key}
    ensures RewriteSome(fields, keys') == Step(RewriteSome(fields, keys), fields, key)
  {
    if fields != [] {
      var f, tail := fields[0], fields[1..];
      if f.key == key {
        WithoutKeyword(tail, keys, key);
        assert RewriteSome(fields, keys) == [f] + RewriteSome(tail, keys);
        assert RewriteSome(fields, keys') == NormalizeEntry(f) + RewriteSome(tail, keys);
        StepAtHead(f, RewriteSome(tail, keys), fields);
      } else {
        AfterKeyword(tail, keys, key, keys');
        var head := if f.key in keys then NormalizeEntry(f) else [f];
        assert RewriteSome(fields, keys) == head + RewriteSome(tail, keys);
        assert RewriteSome(fields, keys') == head + RewriteSome(tail, keys');
        assert Get(fields, key) == Get(tail, key);
        StepSkips(head, RewriteSome(tail, keys), fields, tail, key);
      }
    }
  }

  lemma AfterBranches(fields: seq<Field>)
    requires DistinctKeys(fields)
    ensures Step(Step(RewriteSome(fields, {"properties", "items", "prefixItems"}), fields, "oneOf"), fields, "anyOf")
            == RewriteSome(fields, {"properties", "items", "prefixItems", "oneOf", "anyOf"})
  {
    AfterKeyword(fields, {"properties", "items", "prefixItems"}, "oneOf",
                 {"properties", "items", "prefixItems", "oneOf"});
    AfterKeyword(fields, {"properties", "items", "prefixItems", "oneOf"}, "anyOf",
                 {"properties", "items", "prefixItems", "oneOf", "anyOf"});
  }

  lemma StepAtHead(f: Field, rest: seq<Field>, source: seq<Field>)
    requires Get(source, f.key) == Some(f.value)
    ensures Step([f] + rest, source, f.key) == NormalizeEntry(f) + rest
  {
    assert f == Field(f.key, f.value);
    if !Handled(f) {
      UnhandledStays(f);
    } else {
      HandledKeepsKey(f);
      assert ([f] + rest)[0] == f && ([f] + rest)[1..] == rest;
    }
  }

  lemma UnhandledStays(f: Field)
    requires !Handled(f)
    ensures NormalizeEntry(f) == [f]
  {
  }

  lemma HandledKeepsKey(f: Field)
    requires Handled(f)
    ensures NormalizeEntry(f) == [] || (|NormalizeEntry(f)| == 1 && NormalizeEntry(f)[0].key == f.key)
  {
  }

  lemma StepSkips(head: seq<Field>, rest: seq<Field>, source: seq<Field>, tail: seq<Field>, key: string)
    requires |head| <= 1 && (head != [] ==> head[0].key != key) && Get(source, key) == Get(tail, key)
    ensures Step(head + rest, source, key) == head + Step(rest, tail, key)
  {
    match Get(tail, key)
    case None =>
    case Some(v) => ReplaceSkips(head, rest, key, NormalizeEntry(Field(key, v)));
  }

  lemma {:induction false} WithoutKeyword(fields: seq<Field>, keys: set<string>, key: string)
    requires forall i | 0 <= i < |fields| :: fields[i].key != key
    ensures RewriteSome(fields, keys + {key}) == RewriteSome(fields, keys)
  {
    if fields != [] {
      WithoutKeyword(fields[1..], keys, key);
    }
  }

  lemma ReplaceSkips(head: seq<Field>, rest: seq<Field>, key: string, e: seq<Field>)
    requires |head| <= 1 && (head != [] ==> head[0].key != key)
    ensures Replace(head + rest, key, e) == head + Replace(rest, key, e)
  {
    if head == [] {
      assert head + rest == rest;
    } else {
      assert (head + rest)[0] == head[0] && (head + rest)[1..] == rest;
    }
  }

  lemma {:induction false} DropRequiredOnlyStep(items: seq<Json>, item: Json)
    ensures DropRequiredOnly(items + [item]) == DropRequiredOnly(items) + if RequiredOnly(item) then [] else [item]
  {
    if items == [] {
      assert items + [item] == [item];
    } else {
      assert (items + [item])[0] == items[0] && (items + [item])[1..] == items[1..] + [item];
      DropRequiredOnlyStep(items[1..], item);
    }
  }

  /** Assigning the next entry extends the map normalized so far, `__proto__` apart. */
  lemma NormalizeMapStep(entries: seq<Field>, i: nat)
    requires i < |entries| && DistinctKeys(entries)
    ensures NormalizeMap(entries[..i + 1]) ==
            if entries[i].key == PROTO then NormalizeMap(entries[..i])
            else Put(NormalizeMap(entries[..i]), entries[i].key, Normalize(entries[i].value))
  {
    assert entries[..i + 1] == entries[..i] + [entries[i]];
    NormalizeMapAppend(entries[..i], entries[i]);
    GetNormalizedMap(entries[..i], entries[i].key);
    assert Get(entries[..i], entries[i].key) == None;
    PutNew(NormalizeMap(entries[..i]), entries[i].key, Normalize(entries[i].value));
  }

  lemma {:induction false} NormalizeMapAppend(entries: seq<Field>, e: Field)
    ensures NormalizeMap(entries + [e]) ==
            NormalizeMap(entries) + if e.key == PROTO then [] else [Field(e.key, Normalize(e.value))]
  {
    if entries == [] {
      assert entries + [e] == [e];
    } else {
      assert (entries + [e])[0] == entries[0] && (entries + [e])[1..] == entries[1..] + [e];
      NormalizeMapAppend(entries[1..], e);
    }
  }
}
