/**
 What a schema means (JSON Schema draft 2020-12), and the theorem the normalizer is for:
 an instance that conforms to the normalized schema still validates against the original.
 */
module SchemaSemantics {
  import opened Options
  import opened JsonValues
  import opened SchemaNormalizer

  /**
   The verdict of a keyword that holds no references (`type`, `enum`, `minLength`, ...),
   from its own value and the instance. The theorems hold for every such function.
   */
  type Leaf = (string, Json, Json) -> bool

  datatype Target = WholeDocument | Definition(keyword: string, name: string) | Elsewhere

  /** The `$ref` forms `#`, `#/$defs/N` and `#/definitions/N`, for names that need no unescaping. */
  function ParseRef(ref: string): Target {
    if ref == "#" then WholeDocument
    else if "#/$defs/" <= ref && PlainName(ref[|"#/$defs/"|..]) then Definition("$defs", ref[|"#/$defs/"|..])
    else if "#/definitions/" <= ref && PlainName(ref[|"#/definitions/"|..])
      then Definition("definitions", ref[|"#/definitions/"|..])
    else Elsewhere
  }

  predicate PlainName(name: string) {
    '/' !in name && '~' !in name && '%' !in name
  }

  /** Section 8.2.3.1 of JSON Schema Core, for references into the document itself. */
  function Resolve(document: Json, ref: string): Option<Json> {
    match ParseRef(ref)
    case WholeDocument => Some(document)
    case Definition(keyword, name) =>
      if !document.Obj? then None
      else (match Get(document.fields, keyword) case Some(Obj(entries)) => Get(entries, name) case _ => None)
    case Elsewhere => None
  }

  function PrefixLength(fields: seq<Field>): nat {
    match Get(fields, "prefixItems")
    case Some(Arr(items)) => |items|
    case _ => 0
  }

  /**
   `instance` conforms to `schema` within `fuel` uses of `$ref`. A chain of references that
   never ends is given no meaning by the standard and accepts nothing here.
   */
  predicate Accepts(document: Json, leaf: Leaf, schema: Json, instance: Json, fuel: nat)
    decreases fuel, schema, 1
  {
    match schema
    case Bool(b) => b
    case Obj(fields) =>
      forall f | f in fields ::
        Keyword(document, leaf, PropertiesOf(fields), PrefixLength(fields), f, instance, fuel)
    case _ => false
  }

  /** One keyword of a schema; `declared` and `prefix` are what it needs of its siblings. */
  predicate Keyword(document: Json, leaf: Leaf, declared: seq<Field>, prefix: nat, f: Field, instance: Json, fuel: nat)
    decreases fuel, f, 0
  {
    match f.key
    case "properties" =>
      f.value.Obj? && (instance.Obj? ==>
        forall e | e in f.value.fields && Has(instance.fields, e.key) ::
          Accepts(document, leaf, e.value, Get(instance.fields, e.key).value, fuel))
    case "additionalProperties" =>
      instance.Obj? ==> forall e | e in instance.fields && !Has(declared, e.key) ::
        Accepts(document, leaf, f.value, e.value, fuel)
    case "required" =>
      f.value.Arr? && (instance.Obj? ==> forall k | k in f.value.items :: k.Str? && Has(instance.fields, k.s))
    case "items" =>
      instance.Arr? ==> forall i | prefix <= i < |instance.items| ::
        Accepts(document, leaf, f.value, instance.items[i], fuel)
    case "prefixItems" =>
      f.value.Arr? && (instance.Arr? ==> forall i | 0 <= i < |f.value.items| && i < |instance.items| ::
        Accepts(document, leaf, f.value.items[i], instance.items[i], fuel))
    case "anyOf" => f.value.Arr? && exists v :: v in f.value.items && Accepts(document, leaf, v, instance, fuel)
    case "allOf" => f.value.Arr? && forall v | v in f.value.items :: Accepts(document, leaf, v, instance, fuel)
    case "oneOf" =>
      f.value.Arr? && exists i ::
        && 0 <= i < |f.value.items| && Accepts(document, leaf, f.value.items[i], instance, fuel)
        && forall j | 0 <= j < |f.value.items| && Accepts(document, leaf, f.value.items[j], instance, fuel) :: j == i
    case "$ref" =>
      && fuel > 0 && f.value.Str? && Resolve(document, f.value.s).Some?
      && Accepts(document, leaf, Resolve(document, f.value.s).value, instance, fuel - 1)
    case "$defs" => true
    case "definitions" => true
    case _ => f.key in ANNOTATIONS || leaf(f.key, f.value, instance)
  }

  /** `instance` validates against the document. */
  ghost predicate Valid(document: Json, leaf: Leaf, instance: Json) {
    exists fuel: nat :: Accepts(document, leaf, document, instance, fuel)
  }

  // ----- the schemas the theorem covers

  predicate PlainRef(value: Json) {
    value.Str? ==> !ParseRef(value.s).Elsewhere?
  }

  /** A schema the normalizer carries over as it is: no `oneOf`, references in the plain forms. */
  predicate Untouched(schema: Json)
    decreases schema, 1
  {
    schema.Obj? ==> forall f | f in schema.fields :: UntouchedEntry(f)
  }

  predicate UntouchedEntry(f: Field)
    decreases f, 0
  {
    && f.key != "oneOf"
    && (f.key == "$ref" ==> PlainRef(f.value))
    && (f.key == "properties" && f.value.Obj? ==> forall e | e in f.value.fields :: Untouched(e.value))
    && (f.key == "additionalProperties" || f.key == "items" ==> Untouched(f.value))
    && (f.key in {"prefixItems", "anyOf", "allOf"} && f.value.Arr? ==> forall v | v in f.value.items :: Untouched(v))
  }

  function KeysOf(fields: seq<Field>): set<string> {
    set f | f in fields :: f.key
  }

  /** The declared property keys that survive normalization, and are then required. */
  function KeptKeys(fields: seq<Field>): set<string> {
    KeysOf(PropertiesOf(fields)) - {PROTO}
  }

  /** What the normalized node says about undeclared keys, when it is an object schema. */
  function Closing(fields: seq<Field>): Json {
    match Get(fields, "additionalProperties")
    case Some(v) => v
    case None => Bool(false)
  }

  /** The keys an entry requires all lie within `keys`. */
  predicate RequiresWithin(f: Field, keys: set<string>) {
    f.value.Arr? && forall k | k in f.value.items :: k.Str? && k.s in keys
  }

  /** A required-only branch over the given keys. */
  predicate RequiresOnlyWithin(branch: Json, keys: set<string>) {
    RequiredOnly(branch) && forall r | r in branch.fields && r.key == "required" :: RequiresWithin(r, keys)
  }

  /** An `anyOf` that loses every branch has one that has become required-only over the given keys. */
  predicate SafelyEmptied(items: seq<Json>, keys: set<string>) {
    DropRequiredOnly(NormalizeAll(items)) == [] ==> exists b :: b in items && RequiresOnlyWithin(Normalize(b), keys)
  }

  /** Dropping the property schema `p` is safe: what the node says about undeclared keys implies it. */
  ghost predicate ProtoSafe(document: Json, leaf: Leaf, fields: seq<Field>, p: Json) {
    forall v, fuel: nat | Accepts(Normalize(document), leaf, Closing(fields), v, fuel) ::
        Accepts(document, leaf, p, v, fuel)
  }

  /**
   A schema at a position the normalizer visits. `present` are keys that every instance to be
   validated here has anyway, because an enclosing node on the same instance declares them.
   */
  ghost predicate Covered(document: Json, leaf: Leaf, present: set<string>, schema: Json)
    decreases schema, 1
  {
    schema.Obj? ==> forall f | f in schema.fields :: CoveredEntry(document, leaf, present, schema.fields, f)
  }

  ghost predicate CoveredEntry(document: Json, leaf: Leaf, present: set<string>, fields: seq<Field>, f: Field)
    decreases f, 0
  {
    var here := KeptKeys(fields) + present;
    && f.key != "oneOf"
    && (f.key == "$ref" ==> PlainRef(f.value))
    && (f.key == "required" && KeptKeys(fields) != {} ==> RequiresWithin(f, here))
    && (f.key == "additionalProperties" ==> Untouched(f.value))
    && (f.key == "allOf" && f.value.Arr? ==> forall v | v in f.value.items :: Untouched(v))
    && (f.key == "items" ==> Covered(document, leaf, {}, f.value))
    && (f.key == "properties" && f.value.Obj? ==> forall e | e in f.value.fields ::
         if e.key == PROTO then ProtoSafe(document, leaf, fields, e.value) else Covered(document, leaf, {}, e.value))
    && (f.key in {"$defs", "definitions"} && f.value.Obj? ==> forall e | e in f.value.fields && e.key != PROTO ::
         Covered(document, leaf, {}, e.value))
    && (f.key == "prefixItems" && f.value.Arr? ==> forall v | v in f.value.items :: Covered(document, leaf, {}, v))
    && (f.key == "anyOf" && f.value.Arr? ==>
         SafelyEmptied(f.value.items, here) && forall v | v in f.value.items :: Covered(document, leaf, here, v))
  }

  /** The document the theorem is about. */
  ghost predicate CoveredDocument(document: Json, leaf: Leaf) {
    Covered(document, leaf, {}, document)
  }

  predicate Provides(instance: Json, keys: set<string>) {
    instance.Obj? ==> forall k | k in keys :: Has(instance.fields, k)
  }

  // ----- the theorem

  /** A reference resolves in the normalized document to the normalization of what it named. */
  lemma ResolveInNormalized(document: Json, leaf: Leaf, ref: string)
    requires CoveredDocument(document, leaf)
    requires Resolve(Normalize(document), ref).Some?
    ensures Resolve(document, ref).Some? && Covered(document, leaf, {}, Resolve(document, ref).value)
    ensures Resolve(Normalize(document), ref).value == Normalize(Resolve(document, ref).value)
  {
    match ParseRef(ref)
    case WholeDocument =>
    case Definition(keyword, name) =>
      var fields := document.fields;
      CompleteKeepsOthers(fields, NormalizeEntries(fields), keyword);
      GetNormalizedEntries(fields, keyword);
      var v := Get(fields, keyword).value;
      assert NormalizeEntry(Field(keyword, v)) ==
             if v.Obj? then [Field(keyword, Obj(NormalizeMap(v.fields)))] else [Field(keyword, v)];
      GetNormalizedMap(v.fields, name);
      var target := Get(v.fields, name).value;
      assert Field(keyword, v) in fields && Field(name, target) in v.fields;
      assert CoveredEntry(document, leaf, {}, fields, Field(keyword, v));
  }

  /** Untouched parts only meet the change through the definitions they refer to. */
  lemma {:induction false} UntouchedRefines(document: Json, leaf: Leaf, schema: Json, instance: Json, fuel: nat)
    requires CoveredDocument(document, leaf) && Untouched(schema)
    requires Accepts(Normalize(document), leaf, schema, instance, fuel)
    ensures Accepts(document, leaf, schema, instance, fuel)
    decreases fuel, schema, 1
  {
    if schema.Obj? {
      var declared, prefix := PropertiesOf(schema.fields), PrefixLength(schema.fields);
      forall f | f in schema.fields ensures Keyword(document, leaf, declared, prefix, f, instance, fuel) {
        UntouchedKeywordRefines(document, leaf, declared, prefix, f, instance, fuel);
      }
    }
  }

  lemma {:induction false} UntouchedKeywordRefines(
    document: Json, leaf: Leaf, declared: seq<Field>, prefix: nat, f: Field, instance: Json, fuel: nat)
    requires CoveredDocument(document, leaf) && UntouchedEntry(f)
    requires Keyword(Normalize(document), leaf, declared, prefix, f, instance, fuel)
    ensures Keyword(document, leaf, declared, prefix, f, instance, fuel)
    decreases fuel, f, 0
  {
    var n := Normalize(document);
    match f.key
    case "properties" =>
      if instance.Obj? {
        forall e | e in f.value.fields && Has(instance.fields, e.key)
          ensures Accepts(document, leaf, e.value, Get(instance.fields, e.key).value, fuel)
        {
          UntouchedRefines(document, leaf, e.value, Get(instance.fields, e.key).value, fuel);
        }
      }
    case "additionalProperties" =>
      if instance.Obj? {
        forall e | e in instance.fields && !Has(declared, e.key)
          ensures Accepts(document, leaf, f.value, e.value, fuel)
        {
          UntouchedRefines(document, leaf, f.value, e.value, fuel);
        }
      }
    case "items" =>
      if instance.Arr? {
        forall i | prefix <= i < |instance.items| ensures Accepts(document, leaf, f.value, instance.items[i], fuel) {
          UntouchedRefines(document, leaf, f.value, instance.items[i], fuel);
        }
      }
    case "prefixItems" =>
      if instance.Arr? {
        forall i | 0 <= i < |f.value.items| && i < |instance.items|
          ensures Accepts(document, leaf, f.value.items[i], instance.items[i], fuel)
        {
          UntouchedRefines(document, leaf, f.value.items[i], instance.items[i], fuel);
        }
      }
    case "anyOf" =>
      var v :| v in f.value.items && Accepts(n, leaf, v, instance, fuel);
      UntouchedRefines(document, leaf, v, instance, fuel);
    case "allOf" =>
      forall v | v in f.value.items ensures Accepts(document, leaf, v, instance, fuel) {
        UntouchedRefines(document, leaf, v, instance, fuel);
      }
    case "$ref" =>
      ResolveInNormalized(document, leaf, f.value.s);
      NormalizedRefines(document, leaf, {}, Resolve(document, f.value.s).value, instance, fuel - 1);
    case _ =>
  }

  /** What the normalized schema accepts, the schema accepts, reference by reference. */
  lemma {:induction false} NormalizedRefines(
    document: Json, leaf: Leaf, present: set<string>, schema: Json, instance: Json, fuel: nat)
    requires CoveredDocument(document, leaf) && Covered(document, leaf, present, schema) && Provides(instance, present)
    requires Accepts(Normalize(document), leaf, Normalize(schema), instance, fuel)
    ensures Accepts(document, leaf, schema, instance, fuel)
    decreases fuel, schema, 1
  {
    if schema.Obj? {
      var fields := schema.fields;
      var declared, prefix := PropertiesOf(fields), PrefixLength(fields);
      forall f | f in fields ensures Keyword(document, leaf, declared, prefix, f, instance, fuel) {
        NormalizedKeywordRefines(document, leaf, present, fields, f, instance, fuel);
      }
    }
  }

  /** Keywords that look at their siblings see the kept property keys, and the same prefix length as before. */
  lemma SiblingsOfNormalized(fields: seq<Field>)
    ensures var n := Normalize(Obj(fields)).fields;
            && PrefixLength(n) == PrefixLength(fields)
            && PropertiesOf(n) == NormalizeMap(PropertiesOf(fields))
            && (PropertiesOf(n) == [] <==> KeptKeys(fields) == {})
            && KeysOf(PropertiesOf(n)) == KeptKeys(fields)
  {
    LookupInNormalized(fields);
    PrefixOfNormalized(fields);
    KeptByNormalizing(PropertiesOf(fields));
  }

  lemma PrefixOfNormalized(fields: seq<Field>)
    ensures PrefixLength(Normalize(Obj(fields)).fields) == PrefixLength(fields)
  {
    GetNormalizedEntries(fields, "prefixItems");
    CompleteKeepsOthers(fields, NormalizeEntries(fields), "prefixItems");
    match Get(fields, "prefixItems")
    case None =>
    case Some(v) => assert NormalizeEntry(Field("prefixItems", v)) ==
        if v.Arr? then [Field("prefixItems", Arr(NormalizeAll(v.items)))] else [Field("prefixItems", v)];
  }

  lemma KeptByNormalizing(entries: seq<Field>)
    ensures KeysOf(NormalizeMap(entries)) == KeysOf(entries) - {PROTO}
    ensures NormalizeMap(entries) == [] <==> KeysOf(entries) - {PROTO} == {}
  {
    forall k ensures k in KeysOf(NormalizeMap(entries)) <==> k in KeysOf(entries) - {PROTO} {
      GetNormalizedMap(entries, k);
      assert Has(entries, k) <==> k in KeysOf(entries);
      assert Has(NormalizeMap(entries), k) <==> k in KeysOf(NormalizeMap(entries));
    }
    if NormalizeMap(entries) != [] {
      assert NormalizeMap(entries)[0].key in KeysOf(NormalizeMap(entries));
    }
  }

  /** The normalized node still holds the rewriting of `f`, unless completion replaced it. */
  lemma RewritingIsInNormalized(fields: seq<Field>, f: Field, g: Field)
    requires f in fields && NormalizeEntry(f) == [g]
    requires f.key == "required" ==> KeptKeys(fields) == {}
    ensures g in Normalize(Obj(fields)).fields
  {
    RewrittenIsIn(fields, f, g);
    LookupInRewritten(fields);
    KeptByNormalizing(PropertiesOf(fields));
    CompleteKeepsMembers(fields, NormalizeEntries(fields), g);
  }

  lemma RequiredIsInNormalized(fields: seq<Field>)
    requires KeptKeys(fields) != {}
    ensures var n := Normalize(Obj(fields)).fields; Field("required", Arr(KeyStrings(PropertiesOf(n)))) in n
  {
    LookupInNormalized(fields);
    SiblingsOfNormalized(fields);
  }

  lemma KeyStringsHoldKeys(entries: seq<Field>, k: string)
    requires k in KeysOf(entries)
    ensures Str(k) in KeyStrings(entries)
  {
    var i :| 0 <= i < |entries| && entries[i].key == k;
    assert KeyStrings(entries)[i] == Str(k);
  }

  /** The normalized node requires every kept property. */
  lemma AllKeptArePresent(document: Json, leaf: Leaf, fields: seq<Field>, instance: Json, fuel: nat)
    requires KeptKeys(fields) != {}
    requires Accepts(Normalize(document), leaf, Normalize(Obj(fields)), instance, fuel)
    ensures Provides(instance, KeptKeys(fields))
  {
    var nf := Normalize(Obj(fields)).fields;
    RequiredIsInNormalized(fields);
    SiblingsOfNormalized(fields);
    var required := Field("required", Arr(KeyStrings(PropertiesOf(nf))));
    assert Keyword(Normalize(document), leaf, PropertiesOf(nf), PrefixLength(nf), required, instance, fuel);
    forall k | k in KeptKeys(fields) ensures instance.Obj? ==> Has(instance.fields, k) {
      KeyStringsHoldKeys(PropertiesOf(nf), k);
    }
  }

  /** The value of a dropped property is held to what the node says about undeclared keys. */
  lemma DroppedIsClosed(document: Json, leaf: Leaf, fields: seq<Field>, instance: Json, fuel: nat)
    requires Has(fields, "properties") && instance.Obj? && Has(instance.fields, PROTO)
    requires Accepts(Normalize(document), leaf, Normalize(Obj(fields)), instance, fuel)
    ensures Accepts(Normalize(document), leaf, Closing(fields), Get(instance.fields, PROTO).value, fuel)
  {
    var nf := Normalize(Obj(fields)).fields;
    SiblingsOfNormalized(fields);
    ClosingIsInNormalized(fields);
    var closing := Field("additionalProperties", Closing(fields));
    assert Keyword(Normalize(document), leaf, PropertiesOf(nf), PrefixLength(nf), closing, instance, fuel);
    assert Field(PROTO, Get(instance.fields, PROTO).value) in instance.fields;
    assert !Has(PropertiesOf(nf), PROTO) by { assert PROTO !in KeysOf(PropertiesOf(nf)); }
  }

  lemma ClosingIsInNormalized(fields: seq<Field>)
    requires IsObjectSchema(fields)
    ensures Field("additionalProperties", Closing(fields)) in Normalize(Obj(fields)).fields
  {
    var rewritten := NormalizeEntries(fields);
    GetNormalizedEntries(fields, "additionalProperties");
    match Get(fields, "additionalProperties")
    case Some(v) =>
      assert NormalizeEntry(Field("additionalProperties", v)) == [Field("additionalProperties", v)];
      RewritingIsInNormalized(fields, Field("additionalProperties", v), Field("additionalProperties", v));
    case None =>
      ClosedByCompletion(fields, rewritten);
  }

  lemma ClosedByCompletion(fields: seq<Field>, rewritten: seq<Field>)
    requires IsObjectSchema(fields) && !Has(rewritten, "additionalProperties")
    ensures Field("additionalProperties", Bool(false)) in Complete(fields, rewritten)
  {
    var added := Field("additionalProperties", Bool(false));
    PutKeepsOthers(rewritten, "additionalProperties", Bool(false), added);
    forall s, v { PutKeepsOthers(s, "required", v, added); }
  }

  lemma {:induction false} NormalizedKeywordRefines(
    document: Json, leaf: Leaf, present: set<string>, fields: seq<Field>, f: Field, instance: Json, fuel: nat)
    requires CoveredDocument(document, leaf) && CoveredEntry(document, leaf, present, fields, f) && f in fields
    requires Provides(instance, present)
    requires Accepts(Normalize(document), leaf, Normalize(Obj(fields)), instance, fuel)
    ensures Keyword(document, leaf, PropertiesOf(fields), PrefixLength(fields), f, instance, fuel)
    decreases fuel, f, 2
  {
    if KeptKeys(fields) != {} {
      AllKeptArePresent(document, leaf, fields, instance, fuel);
    }
    if f.key == "required" && KeptKeys(fields) != {} {
    } else if NormalizeEntry(f) == [] {
      EmptiedAnyOf(document, leaf, present, fields, f, instance, fuel);
    } else {
      var nf := Normalize(Obj(fields)).fields;
      RewritingHolds(document, leaf, fields, f, instance, fuel);
      SiblingsOfNormalized(fields);
      if f.key == "properties" && instance.Obj? && Has(instance.fields, PROTO) {
        DroppedIsClosed(document, leaf, fields, instance, fuel);
      }
      RewrittenKeywordRefines(document, leaf, present, fields, PropertiesOf(nf), f, instance, fuel);
    }
  }

  lemma RewritingHolds(document: Json, leaf: Leaf, fields: seq<Field>, f: Field, instance: Json, fuel: nat)
    requires f in fields && NormalizeEntry(f) != []
    requires f.key == "required" ==> KeptKeys(fields) == {}
    requires Accepts(Normalize(document), leaf, Normalize(Obj(fields)), instance, fuel)
    ensures var nf := Normalize(Obj(fields)).fields;
            Keyword(Normalize(document), leaf, PropertiesOf(nf), PrefixLength(fields),
                NormalizeEntry(f)[0], instance, fuel)
  {
    RewritingIsInNormalized(fields, f, NormalizeEntry(f)[0]);
    SiblingsOfNormalized(fields);
  }

  /** What a rewritten keyword of the node says about the instance. */
  ghost predicate RewrittenHolds(
    document: Json, leaf: Leaf, present: set<string>, fields: seq<Field>,
    declared': seq<Field>, f: Field, instance: Json, fuel: nat)
  {
    && CoveredDocument(document, leaf) && CoveredEntry(document, leaf, present, fields, f) && NormalizeEntry(f) != []
    && KeysOf(declared') == KeptKeys(fields) && Provides(instance, KeptKeys(fields) + present)
    && Keyword(Normalize(document), leaf, declared', PrefixLength(fields), NormalizeEntry(f)[0], instance, fuel)
    && (f.key == "properties" && instance.Obj? && Has(instance.fields, PROTO) ==>
         Accepts(Normalize(document), leaf, Closing(fields), Get(instance.fields, PROTO).value, fuel))
  }

  lemma {:induction false} RewrittenKeywordRefines(
    document: Json, leaf: Leaf, present: set<string>, fields: seq<Field>,
    declared': seq<Field>, f: Field, instance: Json, fuel: nat)
    requires RewrittenHolds(document, leaf, present, fields, declared', f, instance, fuel)
    ensures Keyword(document, leaf, PropertiesOf(fields), PrefixLength(fields), f, instance, fuel)
    decreases fuel, f, 1
  {
    match f.key
    case "properties" => RewrittenPropertiesRefine(document, leaf, present, fields, declared', f, instance, fuel);
    case "items" =>
      if instance.Arr? {
        forall i | PrefixLength(fields) <= i < |instance.items|
          ensures Accepts(document, leaf, f.value, instance.items[i], fuel)
        {
          NormalizedRefines(document, leaf, {}, f.value, instance.items[i], fuel);
        }
      }
    case "prefixItems" => RewrittenPrefixRefines(document, leaf, present, fields, declared', f, instance, fuel);
    case "anyOf" => RewrittenAnyOfRefines(document, leaf, present, fields, declared', f, instance, fuel);
    case "$defs" =>
    case "definitions" =>
    case _ =>
      assert NormalizeEntry(f) == [f];
      UntouchedKeywordRefines(document, leaf, declared', PrefixLength(fields), f, instance, fuel);
      MoreDeclared(document, leaf, PropertiesOf(fields), declared', PrefixLength(fields), f, instance, fuel);
  }

  /** Declaring more keys leaves fewer to `additionalProperties`. */
  lemma MoreDeclared(
    document: Json, leaf: Leaf, declared: seq<Field>, declared': seq<Field>,
    prefix: nat, f: Field, instance: Json, fuel: nat)
    requires KeysOf(declared') <= KeysOf(declared) && Keyword(document, leaf, declared', prefix, f, instance, fuel)
    ensures Keyword(document, leaf, declared, prefix, f, instance, fuel)
  {
    forall k | Has(declared', k) ensures Has(declared, k) {
      assert k in KeysOf(declared');
    }
  }

  lemma {:induction false} RewrittenPropertiesRefine(
    document: Json, leaf: Leaf, present: set<string>, fields: seq<Field>,
    declared': seq<Field>, f: Field, instance: Json, fuel: nat)
    requires RewrittenHolds(document, leaf, present, fields, declared', f, instance, fuel) && f.key == "properties"
    ensures Keyword(document, leaf, PropertiesOf(fields), PrefixLength(fields), f, instance, fuel)
    decreases fuel, f, 0
  {
    if instance.Obj? && f.value.Obj? {
      forall e | e in f.value.fields && Has(instance.fields, e.key)
        ensures Accepts(document, leaf, e.value, Get(instance.fields, e.key).value, fuel)
      {
        if e.key == PROTO {
          assert ProtoSafe(document, leaf, fields, e.value);
        } else {
          RewrittenIsInMap(f.value.fields, e);
          NormalizedRefines(document, leaf, {}, e.value, Get(instance.fields, e.key).value, fuel);
        }
      }
    }
  }

  lemma {:induction false} RewrittenAnyOfRefines(
    document: Json, leaf: Leaf, present: set<string>, fields: seq<Field>,
    declared': seq<Field>, f: Field, instance: Json, fuel: nat)
    requires RewrittenHolds(document, leaf, present, fields, declared', f, instance, fuel) && f.key == "anyOf"
    ensures Keyword(document, leaf, PropertiesOf(fields), PrefixLength(fields), f, instance, fuel)
    decreases fuel, f, 0
  {
    var v :| v in NormalizeEntry(f)[0].value.items && Accepts(Normalize(document), leaf, v, instance, fuel);
    var branch := KeptBranch(f, v);
    NormalizedRefines(document, leaf, KeptKeys(fields) + present, branch, instance, fuel);
  }

  /** Every branch of a normalized `anyOf` is the normalization of one of its branches. */
  lemma KeptBranch(f: Field, v: Json) returns (branch: Json)
    requires f.key == "anyOf" && f.value.Arr? && NormalizeEntry(f) != [] && NormalizeEntry(f)[0].value.Arr?
    requires v in NormalizeEntry(f)[0].value.items
    ensures branch in f.value.items && v == Normalize(branch)
  {
    var items := f.value.items;
    assert v in NormalizeAll(items);
    var i :| 0 <= i < |items| && v == NormalizeAll(items)[i];
    branch := items[i];
  }

  lemma {:induction false} RewrittenPrefixRefines(
    document: Json, leaf: Leaf, present: set<string>, fields: seq<Field>,
    declared': seq<Field>, f: Field, instance: Json, fuel: nat)
    requires RewrittenHolds(document, leaf, present, fields, declared', f, instance, fuel) && f.key == "prefixItems"
    ensures Keyword(document, leaf, PropertiesOf(fields), PrefixLength(fields), f, instance, fuel)
    decreases fuel, f, 0
  {
    if instance.Arr? {
      var items := f.value.items;
      forall i | 0 <= i < |items| && i < |instance.items|
        ensures Accepts(document, leaf, items[i], instance.items[i], fuel)
      {
        NormalizedRefines(document, leaf, {}, items[i], instance.items[i], fuel);
      }
    }
  }

  /**
   An `anyOf` that was removed is implied by the properties that are now required. The branch
   that shows it may itself have become required-only by losing an `anyOf`.
   */
  lemma {:induction false} EmptiedAnyOf(
    document: Json, leaf: Leaf, present: set<string>, fields: seq<Field>, f: Field, instance: Json, fuel: nat)
    requires CoveredDocument(document, leaf) && CoveredEntry(document, leaf, present, fields, f)
    requires NormalizeEntry(f) == []
    requires Provides(instance, KeptKeys(fields) + present)
    ensures Keyword(document, leaf, PropertiesOf(fields), PrefixLength(fields), f, instance, fuel)
    decreases fuel, f, 1
  {
    var keys := KeptKeys(fields) + present;
    var b :| b in f.value.items && RequiresOnlyWithin(Normalize(b), keys);
    RequiredOnlyAccepts(Normalize(document), leaf, Normalize(b), keys, instance, fuel);
    NormalizedRefines(document, leaf, keys, b, instance, fuel);
  }

  lemma RequiredOnlyAccepts(document: Json, leaf: Leaf, branch: Json, keys: set<string>, instance: Json, fuel: nat)
    requires RequiresOnlyWithin(branch, keys) && Provides(instance, keys)
    ensures Accepts(document, leaf, branch, instance, fuel)
  {
    var declared, prefix := PropertiesOf(branch.fields), PrefixLength(branch.fields);
    forall r | r in branch.fields ensures Keyword(document, leaf, declared, prefix, r, instance, fuel) {
      if r.key == "required" {
        assert RequiresWithin(r, keys);
      } else {
        AnnotationHolds(document, leaf, declared, prefix, r, instance, fuel);
      }
    }
  }

  lemma AnnotationHolds(
    document: Json, leaf: Leaf, declared: seq<Field>, prefix: nat, r: Field, instance: Json, fuel: nat)
    requires r.key in ANNOTATIONS
    ensures Keyword(document, leaf, declared, prefix, r, instance, fuel)
  {
  }

  /** Output that conforms to the normalized schema passes validation against the original schema. */
  lemma NormalizingRefinesMeaning(document: Json, leaf: Leaf, instance: Json)
    requires CoveredDocument(document, leaf)
    requires Valid(Normalize(document), leaf, instance)
    ensures Valid(document, leaf, instance)
  {
    var fuel: nat :| Accepts(Normalize(document), leaf, Normalize(document), instance, fuel);
    NormalizedRefines(document, leaf, {}, document, instance, fuel);
  }

  // ----- uses of references

  /** No `oneOf` where a schema can stand. */
  predicate OneOfFree(schema: Json)
    decreases schema, 1
  {
    schema.Obj? ==> forall f | f in schema.fields :: OneOfFreeEntry(f)
  }

  predicate OneOfFreeEntry(f: Field)
    decreases f, 0
  {
    && f.key != "oneOf"
    && (f.key in {"properties", "$defs", "definitions"} && f.value.Obj? ==>
          forall e | e in f.value.fields :: OneOfFree(e.value))
    && (f.key == "additionalProperties" || f.key == "items" ==> OneOfFree(f.value))
    && (f.key in {"prefixItems", "anyOf", "allOf"} && f.value.Arr? ==> forall v | v in f.value.items :: OneOfFree(v))
  }

  lemma ResolveOneOfFree(document: Json, ref: string)
    requires OneOfFree(document) && Resolve(document, ref).Some?
    ensures OneOfFree(Resolve(document, ref).value)
  {
    match ParseRef(ref)
    case WholeDocument =>
    case Definition(keyword, name) =>
      var v := Get(document.fields, keyword).value;
      assert Field(keyword, v) in document.fields && OneOfFreeEntry(Field(keyword, v));
      assert Field(name, Get(v.fields, name).value) in v.fields;
  }

  /**
   Without `oneOf`, allowing more uses of references only accepts more: validity is acceptance
   for all large bounds.
   */
  lemma {:induction false} MoreFuelAccepts(document: Json, leaf: Leaf,
      schema: Json, instance: Json, fuel: nat, more: nat)
    requires OneOfFree(document) && OneOfFree(schema) && fuel <= more
    requires Accepts(document, leaf, schema, instance, fuel)
    ensures Accepts(document, leaf, schema, instance, more)
    decreases fuel, schema, 1
  {
    if schema.Obj? {
      var declared, prefix := PropertiesOf(schema.fields), PrefixLength(schema.fields);
      forall f | f in schema.fields ensures Keyword(document, leaf, declared, prefix, f, instance, more) {
        MoreFuelHolds(document, leaf, declared, prefix, f, instance, fuel, more);
      }
    }
  }

  lemma {:induction false} MoreFuelHolds(
    document: Json, leaf: Leaf, declared: seq<Field>, prefix: nat, f: Field, instance: Json, fuel: nat, more: nat)
    requires OneOfFree(document) && OneOfFreeEntry(f) && fuel <= more
    requires Keyword(document, leaf, declared, prefix, f, instance, fuel)
    ensures Keyword(document, leaf, declared, prefix, f, instance, more)
    decreases fuel, f, 1
  {
    match f.key
    case "properties" => MoreFuelHoldsOfFields(document, leaf, declared, prefix, f, instance, fuel, more);
    case "additionalProperties" => MoreFuelHoldsOfFields(document, leaf, declared, prefix, f, instance, fuel, more);
    case "items" => MoreFuelHoldsOfItems(document, leaf, declared, prefix, f, instance, fuel, more);
    case "prefixItems" => MoreFuelHoldsOfItems(document, leaf, declared, prefix, f, instance, fuel, more);
    case "anyOf" => MoreFuelHoldsOfBranches(document, leaf, declared, prefix, f, instance, fuel, more);
    case "allOf" => MoreFuelHoldsOfBranches(document, leaf, declared, prefix, f, instance, fuel, more);
    case "$ref" =>
      ResolveOneOfFree(document, f.value.s);
      MoreFuelAccepts(document, leaf, Resolve(document, f.value.s).value, instance, fuel - 1, more - 1);
    case _ =>
  }

  lemma {:induction false} MoreFuelHoldsOfBranches(
    document: Json, leaf: Leaf, declared: seq<Field>, prefix: nat, f: Field, instance: Json, fuel: nat, more: nat)
    requires OneOfFree(document) && OneOfFreeEntry(f) && fuel <= more
    requires Keyword(document, leaf, declared, prefix, f, instance, fuel)
    requires f.key == "anyOf" || f.key == "allOf"
    ensures Keyword(document, leaf, declared, prefix, f, instance, more)
    decreases fuel, f, 0
  {
    if f.key == "anyOf" {
      var v :| v in f.value.items && Accepts(document, leaf, v, instance, fuel);
      MoreFuelAccepts(document, leaf, v, instance, fuel, more);
    } else {
      forall v | v in f.value.items ensures Accepts(document, leaf, v, instance, more) {
        MoreFuelAccepts(document, leaf, v, instance, fuel, more);
      }
    }
  }

  lemma {:induction false} MoreFuelHoldsOfItems(
    document: Json, leaf: Leaf, declared: seq<Field>, prefix: nat, f: Field, instance: Json, fuel: nat, more: nat)
    requires OneOfFree(document) && OneOfFreeEntry(f) && fuel <= more
    requires Keyword(document, leaf, declared, prefix, f, instance, fuel)
    requires f.key == "items" || f.key == "prefixItems"
    ensures Keyword(document, leaf, declared, prefix, f, instance, more)
    decreases fuel, f, 0
  {
    if instance.Arr? && f.key == "items" {
      forall i | prefix <= i < |instance.items| ensures Accepts(document, leaf, f.value, instance.items[i], more) {
        MoreFuelAccepts(document, leaf, f.value, instance.items[i], fuel, more);
      }
    } else if instance.Arr? {
      forall i | 0 <= i < |f.value.items| && i < |instance.items|
        ensures Accepts(document, leaf, f.value.items[i], instance.items[i], more)
      {
        MoreFuelAccepts(document, leaf, f.value.items[i], instance.items[i], fuel, more);
      }
    }
  }

  lemma {:induction false} MoreFuelHoldsOfFields(
    document: Json, leaf: Leaf, declared: seq<Field>, prefix: nat, f: Field, instance: Json, fuel: nat, more: nat)
    requires OneOfFree(document) && OneOfFreeEntry(f) && fuel <= more && f.key in {"properties", "additionalProperties"}
    requires Keyword(document, leaf, declared, prefix, f, instance, fuel)
    ensures Keyword(document, leaf, declared, prefix, f, instance, more)
    decreases fuel, f, 0
  {
    if instance.Obj? {
      if f.key == "properties" {
        forall e | e in f.value.fields && Has(instance.fields, e.key)
          ensures Accepts(document, leaf, e.value, Get(instance.fields, e.key).value, more)
        {
          MoreFuelAccepts(document, leaf, e.value, Get(instance.fields, e.key).value, fuel, more);
        }
      } else {
        forall e | e in instance.fields && !Has(declared, e.key)
          ensures Accepts(document, leaf, f.value, e.value, more)
        {
          MoreFuelAccepts(document, leaf, f.value, e.value, fuel, more);
        }
      }
    }
  }
}
