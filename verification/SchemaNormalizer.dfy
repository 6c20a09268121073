/**
 The strict-output schema normalizer of infra/processing/schema_normalizer.ts:
 `Normalize` rewrites a schema entry by entry, `Strict` says what a strict schema is,
 and the two are related in both directions.
 */
module SchemaNormalizer {
  import opened Options
  import opened JsonValues

  const ANNOTATIONS: set<string> :=
    {"title", "description", "examples", "default", "$comment", "deprecated", "readOnly", "writeOnly"}

  /** Assigning this key to a plain object sets its prototype and creates no own property. */
  const PROTO := "__proto__"

  /** A branch that only requires keys, which strict mode cannot express. */
  predicate RequiredOnly(node: Json) {
    && node.Obj?
    && (match Get(node.fields, "required") case Some(Arr(keys)) => keys != [] case _ => false)
    && forall f | f in node.fields :: f.key == "required" || f.key in ANNOTATIONS
  }

  predicate IsObjectSchema(fields: seq<Field>) {
    Get(fields, "type") == Some(Str("object")) || Has(fields, "properties")
  }

  /** The entries under `properties`, or none when the keyword is missing or not a record. */
  function PropertiesOf(fields: seq<Field>): seq<Field> {
    match Get(fields, "properties")
    case Some(Obj(entries)) => entries
    case _ => []
  }

  function Normalize(node: Json): Json
    decreases node, 1
  {
    match node
    case Arr(items) => Arr(NormalizeAll(items))
    case Obj(fields) => Obj(Complete(fields, NormalizeEntries(fields)))
    case _ => node
  }

  function NormalizeAll(items: seq<Json>): (r: seq<Json>)
    ensures |r| == |items|
    ensures forall i | 0 <= i < |items| :: r[i] == Normalize(items[i])
    decreases items, 0
  {
    if items == [] then [] else [Normalize(items[0])] + NormalizeAll(items[1..])
  }

  /** `properties`, `$defs` or `definitions`. */
  function NormalizeMap(entries: seq<Field>): seq<Field>
    decreases entries, 0
  {
    if entries == [] then []
    else if entries[0].key == PROTO then NormalizeMap(entries[1..])
    else [Field(entries[0].key, Normalize(entries[0].value))] + NormalizeMap(entries[1..])
  }

  function NormalizeEntries(fields: seq<Field>): seq<Field>
    decreases fields, 0
  {
    if fields == [] then [] else NormalizeEntry(fields[0]) + NormalizeEntries(fields[1..])
  }

  /** The rewriting of one entry of a schema: itself, a new value, or nothing. */
  function NormalizeEntry(f: Field): (r: seq<Field>)
    ensures |r| <= 1 && (r != [] ==> r[0].key == f.key)
    ensures f.key != "oneOf" && f.key != "anyOf" ==> r != []
    decreases f, 0
  {
    match f.value
    case Obj(entries) =>
      if f.key == "properties" || f.key == "$defs" || f.key == "definitions"
        then [Field(f.key, Obj(NormalizeMap(entries)))]
      else if f.key == "items" then [Field(f.key, Normalize(f.value))]
      else [f]
    case Arr(items) =>
      if f.key == "items" then [Field(f.key, Normalize(f.value))]
      else if f.key == "prefixItems" then [Field(f.key, Arr(NormalizeAll(items)))]
      else if f.key == "oneOf" || f.key == "anyOf" then
        var kept := DropRequiredOnly(NormalizeAll(items));
        if kept == [] then [] else [Field(f.key, Arr(kept))]
      else [f]
    case _ => [f]
  }

  function DropRequiredOnly(items: seq<Json>): (r: seq<Json>)
    ensures forall v :: v in r <==> v in items && !RequiredOnly(v)
  {
    if items == [] then []
    else if RequiredOnly(items[0]) then DropRequiredOnly(items[1..])
    else [items[0]] + DropRequiredOnly(items[1..])
  }

  /** The additions made to an object schema once its entries are rewritten. */
  function Complete(source: seq<Field>, rewritten: seq<Field>): seq<Field> {
    if !IsObjectSchema(source) then rewritten
    else
      var closed := if Has(rewritten, "additionalProperties") then rewritten
                    else Put(rewritten, "additionalProperties", Bool(false));
      var entries := PropertiesOf(closed);
      if entries == [] then closed else Put(closed, "required", Arr(KeyStrings(entries)))
  }

  // ----- the strict form

  /** Strict at every node the normalizer visits, which excludes the branches of `allOf`. */
  predicate Strict(node: Json)
    decreases node, 1
  {
    match node
    case Arr(items) => forall v | v in items :: Strict(v)
    case Obj(fields) => StrictObject(fields) && forall f | f in fields :: StrictEntry(f)
    case _ => true
  }

  predicate StrictObject(fields: seq<Field>) {
    IsObjectSchema(fields) ==>
      && Has(fields, "additionalProperties")
      && (var entries := PropertiesOf(fields);
          entries != [] ==> Get(fields, "required") == Some(Arr(KeyStrings(entries))))
  }

  predicate StrictEntry(f: Field)
    decreases f, 0
  {
    match f.value
    case Obj(entries) =>
      if f.key == "properties" || f.key == "$defs" || f.key == "definitions" then
        forall e | e in entries :: e.key != PROTO && Strict(e.value)
      else f.key == "items" ==> Strict(f.value)
    case Arr(items) =>
      if f.key == "items" then Strict(f.value)
      else if f.key == "prefixItems" then forall v | v in items :: Strict(v)
      else if f.key == "oneOf" || f.key == "anyOf" then
        items != [] && forall v | v in items :: Strict(v) && !RequiredOnly(v)
      else true
    case _ => true
  }

  // ----- lookups in a normalized node

  lemma {:induction false} GetNormalizedMap(entries: seq<Field>, key: string)
    ensures Get(NormalizeMap(entries), key) ==
            if key == PROTO then None
            else match Get(entries, key) case Some(v) => Some(Normalize(v)) case None => None
  {
    if entries != [] {
      GetNormalizedMap(entries[1..], key);
    }
  }

  /** Entries keep their keys, so a lookup in the rewritten node is the rewriting of a lookup. */
  lemma {:induction false} GetNormalizedEntries(fields: seq<Field>, key: string)
    requires key != "oneOf" && key != "anyOf"
    ensures Get(NormalizeEntries(fields), key) ==
            match Get(fields, key) case Some(v) => Some(NormalizeEntry(Field(key, v))[0].value) case None => None
  {
    if fields != [] {
      GetNormalizedEntries(fields[1..], key);
      var head, tail := NormalizeEntry(fields[0]), NormalizeEntries(fields[1..]);
      if head != [] {
        assert (head + tail)[0] == head[0] && (head + tail)[1..] == tail;
      } else {
        assert head + tail == tail;
      }
    }
  }

  lemma {:induction false} RewrittenIsIn(fields: seq<Field>, f: Field, g: Field)
    requires f in fields && NormalizeEntry(f) == [g]
    ensures g in NormalizeEntries(fields)
  {
    if f != fields[0] {
      assert f in fields[1..];
      RewrittenIsIn(fields[1..], f, g);
    }
  }

  /** The entry that a rewritten entry came from. */
  lemma {:induction false} SourceOf(fields: seq<Field>, g: Field) returns (f: Field)
    requires g in NormalizeEntries(fields)
    ensures f in fields && NormalizeEntry(f) == [g]
  {
    if g in NormalizeEntry(fields[0]) {
      f := fields[0];
    } else {
      f := SourceOf(fields[1..], g);
    }
  }

  lemma {:induction false} RewrittenIsInMap(entries: seq<Field>, e: Field)
    requires e in entries && e.key != PROTO
    ensures Field(e.key, Normalize(e.value)) in NormalizeMap(entries)
  {
    if e != entries[0] {
      assert e in entries[1..];
      RewrittenIsInMap(entries[1..], e);
    }
  }

  lemma {:induction false} SourceInMap(entries: seq<Field>, g: Field) returns (e: Field)
    requires g in NormalizeMap(entries)
    ensures e in entries && e.key != PROTO && g == Field(e.key, Normalize(e.value))
  {
    if entries[0].key != PROTO && g == Field(entries[0].key, Normalize(entries[0].value)) {
      e := entries[0];
    } else {
      e := SourceInMap(entries[1..], g);
    }
  }

  /** Completion touches `additionalProperties` and `required` only. */
  lemma CompleteKeepsOthers(source: seq<Field>, rewritten: seq<Field>, key: string)
    requires key != "additionalProperties" && key != "required"
    ensures Get(Complete(source, rewritten), key) == Get(rewritten, key)
  {
    var closed := Put(rewritten, "additionalProperties", Bool(false));
    GetPut(rewritten, "additionalProperties", Bool(false), key);
    forall s, v { GetPut(s, "required", v, key); }
  }

  lemma CompleteKeepsMembers(source: seq<Field>, rewritten: seq<Field>, f: Field)
    requires f in rewritten && (f.key == "required" ==> !IsObjectSchema(source) || PropertiesOf(rewritten) == [])
    ensures f in Complete(source, rewritten)
  {
    if IsObjectSchema(source) {
      if !Has(rewritten, "additionalProperties") {
        PutKeepsOthers(rewritten, "additionalProperties", Bool(false), f);
        GetPut(rewritten, "additionalProperties", Bool(false), "properties");
      }
      forall s, v { PutKeepsOthers(s, "required", v, f); }
    }
  }

  /** Keyword by keyword, what a lookup in the normalized node returns. */
  lemma LookupInNormalized(fields: seq<Field>)
    ensures var n := Normalize(Obj(fields)).fields;
            && Get(n, "type") == Get(fields, "type")
            && (Has(n, "properties") <==> Has(fields, "properties"))
            && PropertiesOf(n) == NormalizeMap(PropertiesOf(fields))
            && (IsObjectSchema(n) <==> IsObjectSchema(fields))
            && (IsObjectSchema(fields) ==> Has(n, "additionalProperties"))
            && (IsObjectSchema(fields) && PropertiesOf(n) != [] ==>
                  Get(n, "required") == Some(Arr(KeyStrings(PropertiesOf(n)))))
  {
    var rewritten := NormalizeEntries(fields);
    LookupInRewritten(fields);
    CompleteKeepsOthers(fields, rewritten, "type");
    CompleteKeepsOthers(fields, rewritten, "properties");
    if IsObjectSchema(fields) {
      CompletedObject(fields, rewritten);
    }
  }

  lemma LookupInRewritten(fields: seq<Field>)
    ensures var n := NormalizeEntries(fields);
            && Get(n, "type") == Get(fields, "type")
            && (Has(n, "properties") <==> Has(fields, "properties"))
            && PropertiesOf(n) == NormalizeMap(PropertiesOf(fields))
  {
    GetNormalizedEntries(fields, "type");
    GetNormalizedEntries(fields, "properties");
    match Get(fields, "type")
    case None =>
    case Some(v) => TypeStays(v);
    match Get(fields, "properties")
    case None =>
    case Some(v) => PropertiesBecome(v);
  }

  lemma TypeStays(v: Json)
    ensures NormalizeEntry(Field("type", v)) == [Field("type", v)]
  {
  }

  lemma PropertiesBecome(v: Json)
    ensures NormalizeEntry(Field("properties", v)) ==
            [Field("properties", if v.Obj? then Obj(NormalizeMap(v.fields)) else v)]
  {
  }

  lemma CompletedObject(source: seq<Field>, rewritten: seq<Field>)
    requires IsObjectSchema(source)
    ensures var n := Complete(source, rewritten);
            && Has(n, "additionalProperties")
            && (PropertiesOf(n) != [] ==> Get(n, "required") == Some(Arr(KeyStrings(PropertiesOf(n)))))
  {
    var closed := if Has(rewritten, "additionalProperties") then rewritten
                  else Put(rewritten, "additionalProperties", Bool(false));
    GetPut(rewritten, "additionalProperties", Bool(false), "additionalProperties");
    var required := Arr(KeyStrings(PropertiesOf(closed)));
    GetPut(closed, "required", required, "required");
    GetPut(closed, "required", required, "additionalProperties");
    GetPut(closed, "required", required, "properties");
  }

  // ----- normalizing reaches the strict form, and exactly the strict schemas are its fixpoints

  lemma {:induction false} NormalizedIsStrict(node: Json)
    ensures Strict(Normalize(node))
    decreases node, 1
  {
    match node
    case Arr(items) =>
      forall v | v in NormalizeAll(items) ensures Strict(v) {
        var i :| 0 <= i < |items| && v == NormalizeAll(items)[i];
        NormalizedIsStrict(items[i]);
      }
    case Obj(fields) =>
      LookupInNormalized(fields);
      var rewritten := NormalizeEntries(fields);
      forall g | g in Normalize(node).fields ensures StrictEntry(g) {
        if g.key != "additionalProperties" && g.key != "required" {
          CompletedMember(fields, rewritten, g);
          var f := SourceOf(fields, g);
          NormalizedEntryIsStrict(f);
        }
      }
    case _ =>
  }

  lemma CompletedMember(source: seq<Field>, rewritten: seq<Field>, g: Field)
    requires g in Complete(source, rewritten) && g.key != "additionalProperties" && g.key != "required"
    ensures g in rewritten
  {
    PutKeepsOthers(rewritten, "additionalProperties", Bool(false), g);
    forall s, v { PutKeepsOthers(s, "required", v, g); }
  }

  lemma {:induction false} NormalizedEntryIsStrict(f: Field)
    ensures forall g | g in NormalizeEntry(f) :: StrictEntry(g)
    decreases f, 0
  {
    match f.value
    case Obj(entries) =>
      if f.key == "properties" || f.key == "$defs" || f.key == "definitions" {
        forall g | g in NormalizeMap(entries) ensures g.key != PROTO && Strict(g.value) {
          var e := SourceInMap(entries, g);
          NormalizedIsStrict(e.value);
        }
      } else if f.key == "items" {
        NormalizedIsStrict(f.value);
      }
    case Arr(items) =>
      if f.key == "items" {
        NormalizedIsStrict(f.value);
      }
      forall v | v in NormalizeAll(items) && f.key in {"prefixItems", "oneOf", "anyOf"} ensures Strict(v) {
        var i :| 0 <= i < |items| && v == NormalizeAll(items)[i];
        NormalizedIsStrict(items[i]);
      }
    case _ =>
  }

  lemma {:induction false} StrictIsFixpoint(node: Json)
    requires Strict(node)
    ensures Normalize(node) == node
    decreases node, 1
  {
    match node
    case Arr(items) => StrictItemsAreFixpoints(items);
    case Obj(fields) =>
      StrictEntriesAreFixpoints(fields);
      if IsObjectSchema(fields) && PropertiesOf(fields) != [] {
        PutSame(fields, "required", Arr(KeyStrings(PropertiesOf(fields))));
      }
    case _ =>
  }

  lemma {:induction false} StrictItemsAreFixpoints(items: seq<Json>)
    requires forall v | v in items :: Strict(v)
    ensures NormalizeAll(items) == items
    decreases items, 0
  {
    if items != [] {
      StrictIsFixpoint(items[0]);
      StrictItemsAreFixpoints(items[1..]);
    }
  }

  lemma {:induction false} StrictEntriesAreFixpoints(fields: seq<Field>)
    requires forall f | f in fields :: StrictEntry(f)
    ensures NormalizeEntries(fields) == fields
    decreases fields, 0
  {
    if fields != [] {
      assert forall f | f in fields[1..] :: f in fields;
      StrictEntryIsFixpoint(fields[0]);
      StrictEntriesAreFixpoints(fields[1..]);
      assert NormalizeEntries(fields) == [fields[0]] + fields[1..];
    }
  }

  lemma {:induction false} StrictMapIsFixpoint(entries: seq<Field>)
    requires forall e | e in entries :: e.key != PROTO && Strict(e.value)
    ensures NormalizeMap(entries) == entries
    decreases entries, 0
  {
    if entries != [] {
      StrictIsFixpoint(entries[0].value);
      StrictMapIsFixpoint(entries[1..]);
    }
  }

  lemma {:induction false} StrictEntryIsFixpoint(f: Field)
    requires StrictEntry(f)
    ensures NormalizeEntry(f) == [f]
    decreases f, 0
  {
    match f.value
    case Obj(entries) =>
      if f.key == "properties" || f.key == "$defs" || f.key == "definitions" {
        StrictMapIsFixpoint(entries);
      } else if f.key == "items" {
        StrictIsFixpoint(f.value);
      }
    case Arr(items) =>
      if f.key == "items" {
        StrictIsFixpoint(f.value);
      } else if f.key == "prefixItems" {
        StrictItemsAreFixpoints(items);
      } else if f.key == "oneOf" || f.key == "anyOf" {
        StrictItemsAreFixpoints(items);
        NothingToDrop(items);
      }
    case _ =>
  }

  lemma {:induction false} NothingToDrop(items: seq<Json>)
    requires forall v | v in items :: !RequiredOnly(v)
    ensures DropRequiredOnly(items) == items
  {
    if items != [] {
      NothingToDrop(items[1..]);
    }
  }

  /** The strict schemas are the fixpoints of the normalizer, and one pass reaches them. */
  lemma FixpointsAreTheStrictSchemas(node: Json)
    ensures Normalize(node) == node <==> Strict(node)
    ensures Normalize(Normalize(node)) == Normalize(node)
  {
    NormalizedIsStrict(node);
    StrictIsFixpoint(Normalize(node));
    if Strict(node) {
      StrictIsFixpoint(node);
    }
  }

  // ----- the strict form, position by position

  /** `sub` stands in `node` where the normalizer looks for schemas. */
  ghost predicate Visits(node: Json, sub: Json)
    decreases node, 1
  {
    || node == sub
    || match node
       case Arr(items) => exists v :: v in items && Visits(v, sub)
       case Obj(fields) => exists f :: f in fields && VisitsEntry(f, sub)
       case _ => false
  }

  ghost predicate VisitsEntry(f: Field, sub: Json)
    decreases f, 0
  {
    match f.value
    case Obj(entries) =>
      if f.key in {"properties", "$defs", "definitions"} then exists e :: e in entries && Visits(e.value, sub)
      else f.key == "items" && Visits(f.value, sub)
    case Arr(items) =>
      if f.key == "items" then Visits(f.value, sub)
      else f.key in {"prefixItems", "oneOf", "anyOf"} && exists v :: v in items && Visits(v, sub)
    case _ => false
  }

  lemma {:induction false} StrictEverywhere(node: Json, sub: Json)
    requires Strict(node) && Visits(node, sub)
    ensures Strict(sub)
    decreases node, 1
  {
    if node != sub {
      match node
      case Arr(items) =>
        var v :| v in items && Visits(v, sub);
        StrictEverywhere(v, sub);
      case Obj(fields) =>
        var f :| f in fields && VisitsEntry(f, sub);
        StrictInEntry(f, sub);
    }
  }

  lemma {:induction false} StrictInEntry(f: Field, sub: Json)
    requires StrictEntry(f) && VisitsEntry(f, sub)
    ensures Strict(sub)
    decreases f, 0
  {
    match f.value
    case Obj(entries) =>
      if f.key in {"properties", "$defs", "definitions"} {
        var e :| e in entries && Visits(e.value, sub);
        StrictEverywhere(e.value, sub);
      } else {
        StrictEverywhere(f.value, sub);
      }
    case Arr(items) =>
      if f.key == "items" {
        StrictEverywhere(f.value, sub);
      } else {
        var v :| v in items && Visits(v, sub);
        StrictEverywhere(v, sub);
      }
  }

  /**
   Wherever the normalizer looks: an object schema (by its type or its properties) says what
   becomes of undeclared keys, and if it declares any, it requires exactly these, in order.
   */
  lemma ObjectsAreClosed(node: Json, sub: Json)
    requires Visits(Normalize(node), sub) && sub.Obj?
    requires Get(sub.fields, "type") == Some(Str("object")) || Has(sub.fields, "properties")
    ensures Has(sub.fields, "additionalProperties")
    ensures forall entries: seq<Field> | Get(sub.fields, "properties") == Some(Obj(entries)) && entries != [] ::
              exists keys: seq<Json> :: Get(sub.fields, "required") == Some(Arr(keys)) && |keys| == |entries|
                && forall i | 0 <= i < |keys| :: keys[i] == Str(entries[i].key)
  {
    NormalizedIsStrict(node);
    StrictEverywhere(Normalize(node), sub);
    assert IsObjectSchema(sub.fields);
    var entries := PropertiesOf(sub.fields);
    if entries != [] {
      var keys := KeyStrings(entries);
      assert Get(sub.fields, "required") == Some(Arr(keys));
    }
  }

  /** The branches that are dropped, keyword by keyword: a list of required keys, and annotations. */
  lemma DroppedBranches(items: seq<Json>, branch: Json)
    ensures branch in DropRequiredOnly(items) <==>
            branch in items && !(
              && branch.Obj?
              && (exists keys: seq<Json> :: keys != [] && Get(branch.fields, "required") == Some(Arr(keys)))
              && forall f | f in branch.fields ::
                   f.key in {"required", "title", "description", "examples", "default", "$comment", "deprecated",
                             "readOnly", "writeOnly"})
  {
    if RequiredOnly(branch) {
      var keys := Get(branch.fields, "required").value.items;
      assert Get(branch.fields, "required") == Some(Arr(keys));
    }
  }

  /** ... and no list of alternatives is empty or has a branch that only requires keys. */
  lemma AlternativesSayMore(node: Json, sub: Json, f: Field, branch: Json)
    requires Visits(Normalize(node), sub) && sub.Obj? && f in sub.fields && f.key in {"oneOf", "anyOf"} && f.value.Arr?
    ensures f.value.items != []
    ensures branch in f.value.items && branch.Obj? ==>
              || !Has(branch.fields, "required")
              || (exists e :: e in branch.fields && e.key !in {"required", "title", "description", "examples",
                   "default", "$comment", "deprecated", "readOnly", "writeOnly"})
              || Get(branch.fields, "required") == Some(Arr([]))
              || !Get(branch.fields, "required").value.Arr?
  {
    NormalizedIsStrict(node);
    StrictEverywhere(Normalize(node), sub);
    assert StrictEntry(f);
    if branch in f.value.items && branch.Obj? {
      assert !RequiredOnly(branch);
    }
  }

  /** What the normalizer adds to a node: `additionalProperties: false` to object schemas that say nothing of it. */
  lemma ClosedWithFalse(fields: seq<Field>)
    ensures var n := Normalize(Obj(fields)).fields;
            Get(n, "additionalProperties") ==
            if Has(fields, "additionalProperties") then Get(fields, "additionalProperties")
            else if Get(fields, "type") == Some(Str("object")) || Has(fields, "properties") then Some(Bool(false))
            else None
  {
    AdditionalInRewritten(fields);
    CompletedAdditional(fields, NormalizeEntries(fields));
  }

  lemma AdditionalInRewritten(fields: seq<Field>)
    ensures Get(NormalizeEntries(fields), "additionalProperties") == Get(fields, "additionalProperties")
  {
    GetNormalizedEntries(fields, "additionalProperties");
    match Get(fields, "additionalProperties")
    case Some(v) => AdditionalStays(v);
    case None =>
  }

  lemma AdditionalStays(v: Json)
    ensures NormalizeEntry(Field("additionalProperties", v)) == [Field("additionalProperties", v)]
  {
  }

  lemma CompletedAdditional(source: seq<Field>, rewritten: seq<Field>)
    ensures Get(Complete(source, rewritten), "additionalProperties") ==
            if Has(rewritten, "additionalProperties") then Get(rewritten, "additionalProperties")
            else if Get(source, "type") == Some(Str("object")) || Has(source, "properties") then Some(Bool(false))
            else None
  {
    GetPut(rewritten, "additionalProperties", Bool(false), "additionalProperties");
    forall s, v { GetPut(s, "required", v, "additionalProperties"); }
  }
}
