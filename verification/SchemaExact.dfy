/**
 What normalizing refuses: the normalized document accepts exactly the instances that the
 original accepts and that fit it, key by key and branch by branch.
 */
module SchemaExact {
  import opened Options
  import opened JsonValues
  import opened SchemaNormalizer
  import opened SchemaSemantics

  // ----- which instances fit

  /** The reference does not name a definition called `__proto__`. */
  predicate Survives(ref: string) {
    match ParseRef(ref)
    case Definition(_, name) => name != PROTO
    case _ => true
  }

  /** An object fits an object schema if it has all kept keys, and no others unless the schema speaks of them. */
  predicate NodeFits(fields: seq<Field>, instance: Json) {
    IsObjectSchema(fields) && instance.Obj? ==>
      && Provides(instance, KeptKeys(fields))
      && (!Has(fields, "additionalProperties") ==> KeysOf(instance.fields) <= KeptKeys(fields))
  }

  /** `instance` fits a schema that the normalizer visits. */
  ghost predicate Fits(document: Json, leaf: Leaf, schema: Json, instance: Json, fuel: nat)
    decreases fuel, schema, 2
  {
    schema.Obj? ==>
      && NodeFits(schema.fields, instance)
      && forall f | f in schema.fields :: EntryFits(document, leaf, schema.fields, f, instance, fuel)
  }

  /**
   The parts of the instance that one keyword is about. Of an `anyOf` that keeps some branches,
   one of these has to accept the instance; keys that are not kept are held to
   `additionalProperties`.
   */
  ghost predicate EntryFits(document: Json, leaf: Leaf, fields: seq<Field>, f: Field, instance: Json, fuel: nat)
    decreases fuel, f, 1
  {
    match f.key
    case "properties" =>
      f.value.Obj? && instance.Obj? ==>
        forall e | e in f.value.fields && e.key != PROTO && Has(instance.fields, e.key) ::
          Fits(document, leaf, e.value, Get(instance.fields, e.key).value, fuel)
    case "items" =>
      instance.Arr? ==> forall i | PrefixLength(fields) <= i < |instance.items| ::
        Fits(document, leaf, f.value, instance.items[i], fuel)
    case "prefixItems" =>
      f.value.Arr? && instance.Arr? ==> forall i | 0 <= i < |f.value.items| && i < |instance.items| ::
        Fits(document, leaf, f.value.items[i], instance.items[i], fuel)
    case "anyOf" =>
      f.value.Arr? && NormalizeEntry(f) != [] ==> exists b ::
        && b in f.value.items && !RequiredOnly(Normalize(b))
        && Accepts(document, leaf, b, instance, fuel) && Fits(document, leaf, b, instance, fuel)
    case "additionalProperties" =>
      instance.Obj? ==> forall e | e in instance.fields && e.key !in KeptKeys(fields) ::
        Accepts(document, leaf, f.value, e.value, fuel) && CarriedFits(document, leaf, f.value, e.value, fuel)
    case _ => CarriedEntryFits(document, leaf, PropertiesOf(fields), PrefixLength(fields), f, instance, fuel)
  }

  /** `instance` fits a schema that is carried over as it is: it fits what the schema refers to. */
  ghost predicate CarriedFits(document: Json, leaf: Leaf, schema: Json, instance: Json, fuel: nat)
    decreases fuel, schema, 1
  {
    schema.Obj? ==> forall f | f in schema.fields ::
      CarriedEntryFits(document, leaf, PropertiesOf(schema.fields), PrefixLength(schema.fields), f, instance, fuel)
  }

  ghost predicate CarriedEntryFits(
    document: Json, leaf: Leaf, declared: seq<Field>, prefix: nat, f: Field, instance: Json, fuel: nat)
    decreases fuel, f, 0
  {
    match f.key
    case "properties" =>
      f.value.Obj? && instance.Obj? ==> forall e | e in f.value.fields && Has(instance.fields, e.key) ::
        CarriedFits(document, leaf, e.value, Get(instance.fields, e.key).value, fuel)
    case "additionalProperties" =>
      instance.Obj? ==> forall e | e in instance.fields && !Has(declared, e.key) ::
        CarriedFits(document, leaf, f.value, e.value, fuel)
    case "items" =>
      instance.Arr? ==> forall i | prefix <= i < |instance.items| ::
        CarriedFits(document, leaf, f.value, instance.items[i], fuel)
    case "prefixItems" =>
      f.value.Arr? && instance.Arr? ==> forall i | 0 <= i < |f.value.items| && i < |instance.items| ::
        CarriedFits(document, leaf, f.value.items[i], instance.items[i], fuel)
    case "anyOf" =>
      f.value.Arr? ==> exists v ::
        && v in f.value.items && Accepts(document, leaf, v, instance, fuel)
        && CarriedFits(document, leaf, v, instance, fuel)
    case "allOf" => f.value.Arr? ==> forall v | v in f.value.items :: CarriedFits(document, leaf, v, instance, fuel)
    case "$ref" =>
      fuel > 0 && f.value.Str? ==>
        && Survives(f.value.s)
        && (Resolve(document, f.value.s).Some? ==>
             Fits(document, leaf, Resolve(document, f.value.s).value, instance, fuel - 1))
    case _ => true
  }

  // ----- references

  lemma ResolveSurvives(document: Json, ref: string)
    requires Resolve(document, ref).Some? && Survives(ref)
    ensures Resolve(Normalize(document), ref).Some?
  {
    match ParseRef(ref)
    case WholeDocument =>
    case Definition(keyword, name) =>
      DefinitionSurvives(document.fields, keyword, name, Get(document.fields, keyword).value.fields);
  }

  lemma DefinitionSurvives(fields: seq<Field>, keyword: string, name: string, entries: seq<Field>)
    requires (keyword == "$defs" || keyword == "definitions") && name != PROTO
    requires Get(fields, keyword) == Some(Obj(entries)) && Get(entries, name).Some?
    ensures Get(Normalize(Obj(fields)).fields, keyword) == Some(Obj(NormalizeMap(entries)))
    ensures Get(NormalizeMap(entries), name).Some?
  {
    CompleteKeepsOthers(fields, NormalizeEntries(fields), keyword);
    GetNormalizedEntries(fields, keyword);
    DefinitionsBecome(keyword, entries);
    GetNormalizedMap(entries, name);
  }

  lemma DefinitionsBecome(keyword: string, entries: seq<Field>)
    requires keyword == "$defs" || keyword == "definitions"
    ensures NormalizeEntry(Field(keyword, Obj(entries))) == [Field(keyword, Obj(NormalizeMap(entries)))]
  {
  }

  lemma OnlySurvivorsResolve(document: Json, ref: string)
    requires Resolve(Normalize(document), ref).Some?
    ensures Survives(ref)
  {
    match ParseRef(ref)
    case WholeDocument =>
    case Definition(keyword, name) =>
      var fields := document.fields;
      CompleteKeepsOthers(fields, NormalizeEntries(fields), keyword);
      GetNormalizedEntries(fields, keyword);
      var v := Get(fields, keyword).value;
      DefinitionsBecomeOrStay(keyword, v);
      GetNormalizedMap(v.fields, name);
  }

  lemma DefinitionsBecomeOrStay(keyword: string, v: Json)
    requires keyword == "$defs" || keyword == "definitions"
    ensures NormalizeEntry(Field(keyword, v)) ==
            [Field(keyword, if v.Obj? then Obj(NormalizeMap(v.fields)) else v)]
  {
  }

  // ----- an instance that is accepted and fits is accepted after normalizing

  lemma {:induction false} CarriedStaysAccepted(document: Json, leaf: Leaf, schema: Json, instance: Json, fuel: nat)
    requires CoveredDocument(document, leaf) && Untouched(schema)
    requires Accepts(document, leaf, schema, instance, fuel) && CarriedFits(document, leaf, schema, instance, fuel)
    ensures Accepts(Normalize(document), leaf, schema, instance, fuel)
    decreases fuel, schema, 1
  {
    if schema.Obj? {
      var n, declared, prefix := Normalize(document), PropertiesOf(schema.fields), PrefixLength(schema.fields);
      forall f | f in schema.fields ensures Keyword(n, leaf, declared, prefix, f, instance, fuel) {
        CarriedKeywordStays(document, leaf, declared, prefix, f, instance, fuel);
      }
    }
  }

  /** A keyword of a carried part holds of the instance, and the instance fits it. */
  ghost predicate CarriedHolds(
    document: Json, leaf: Leaf, declared: seq<Field>, prefix: nat, f: Field, instance: Json, fuel: nat)
  {
    && CoveredDocument(document, leaf) && UntouchedEntry(f)
    && Keyword(document, leaf, declared, prefix, f, instance, fuel)
    && CarriedEntryFits(document, leaf, declared, prefix, f, instance, fuel)
  }

  lemma {:induction false} CarriedKeywordStays(
    document: Json, leaf: Leaf, declared: seq<Field>, prefix: nat, f: Field, instance: Json, fuel: nat)
    requires CarriedHolds(document, leaf, declared, prefix, f, instance, fuel)
    ensures Keyword(Normalize(document), leaf, declared, prefix, f, instance, fuel)
    decreases fuel, f, 1
  {
    match f.key
    case "properties" => CarriedFieldsStay(document, leaf, declared, prefix, f, instance, fuel);
    case "additionalProperties" => CarriedFieldsStay(document, leaf, declared, prefix, f, instance, fuel);
    case "items" => CarriedItemsStay(document, leaf, declared, prefix, f, instance, fuel);
    case "prefixItems" => CarriedItemsStay(document, leaf, declared, prefix, f, instance, fuel);
    case "anyOf" => CarriedBranchesStay(document, leaf, declared, prefix, f, instance, fuel);
    case "allOf" => CarriedBranchesStay(document, leaf, declared, prefix, f, instance, fuel);
    case "$ref" => CarriedRefStays(document, leaf, declared, prefix, f, instance, fuel);
    case _ =>
  }

  lemma {:induction false} CarriedFieldsStay(
    document: Json, leaf: Leaf, declared: seq<Field>, prefix: nat, f: Field, instance: Json, fuel: nat)
    requires CarriedHolds(document, leaf, declared, prefix, f, instance, fuel)
    requires f.key == "properties" || f.key == "additionalProperties"
    ensures Keyword(Normalize(document), leaf, declared, prefix, f, instance, fuel)
    decreases fuel, f, 0
  {
    var n := Normalize(document);
    if instance.Obj? && f.key == "properties" {
      forall e | e in f.value.fields && Has(instance.fields, e.key)
        ensures Accepts(n, leaf, e.value, Get(instance.fields, e.key).value, fuel)
      {
        CarriedStaysAccepted(document, leaf, e.value, Get(instance.fields, e.key).value, fuel);
      }
    } else if instance.Obj? {
      forall e | e in instance.fields && !Has(declared, e.key) ensures Accepts(n, leaf, f.value, e.value, fuel) {
        CarriedStaysAccepted(document, leaf, f.value, e.value, fuel);
      }
    }
  }

  lemma {:induction false} CarriedItemsStay(
    document: Json, leaf: Leaf, declared: seq<Field>, prefix: nat, f: Field, instance: Json, fuel: nat)
    requires CarriedHolds(document, leaf, declared, prefix, f, instance, fuel)
    requires f.key == "items" || f.key == "prefixItems"
    ensures Keyword(Normalize(document), leaf, declared, prefix, f, instance, fuel)
    decreases fuel, f, 0
  {
    var n := Normalize(document);
    if instance.Arr? && f.key == "items" {
      forall i | prefix <= i < |instance.items| ensures Accepts(n, leaf, f.value, instance.items[i], fuel) {
        CarriedStaysAccepted(document, leaf, f.value, instance.items[i], fuel);
      }
    } else if instance.Arr? {
      forall i | 0 <= i < |f.value.items| && i < |instance.items|
        ensures Accepts(n, leaf, f.value.items[i], instance.items[i], fuel)
      {
        CarriedStaysAccepted(document, leaf, f.value.items[i], instance.items[i], fuel);
      }
    }
  }

  lemma {:induction false} CarriedBranchesStay(
    document: Json, leaf: Leaf, declared: seq<Field>, prefix: nat, f: Field, instance: Json, fuel: nat)
    requires CarriedHolds(document, leaf, declared, prefix, f, instance, fuel)
    requires f.key == "anyOf" || f.key == "allOf"
    ensures Keyword(Normalize(document), leaf, declared, prefix, f, instance, fuel)
    decreases fuel, f, 0
  {
    if f.key == "anyOf" {
      var v :| v in f.value.items && Accepts(document, leaf, v, instance, fuel)
               && CarriedFits(document, leaf, v, instance, fuel);
      CarriedStaysAccepted(document, leaf, v, instance, fuel);
    } else {
      forall v | v in f.value.items ensures Accepts(Normalize(document), leaf, v, instance, fuel) {
        CarriedStaysAccepted(document, leaf, v, instance, fuel);
      }
    }
  }

  lemma {:induction false} CarriedRefStays(
    document: Json, leaf: Leaf, declared: seq<Field>, prefix: nat, f: Field, instance: Json, fuel: nat)
    requires CarriedHolds(document, leaf, declared, prefix, f, instance, fuel) && f.key == "$ref"
    ensures Keyword(Normalize(document), leaf, declared, prefix, f, instance, fuel)
    decreases fuel, f, 0
  {
    RefMeans(document, leaf, declared, prefix, f, instance, fuel);
    RefFitsMeans(document, leaf, declared, prefix, f, instance, fuel);
    RefStays(document, leaf, f.value, instance, fuel);
    RefMeans(Normalize(document), leaf, declared, prefix, f, instance, fuel);
  }

  /** What the reference `ref` names accepts the instance. */
  ghost predicate RefAccepts(document: Json, leaf: Leaf, ref: Json, instance: Json, fuel: nat) {
    && fuel > 0 && ref.Str?
    && Resolve(document, ref.s).Some?
    && Accepts(document, leaf, Resolve(document, ref.s).value, instance, fuel - 1)
  }

  /** What the reference `ref` names survives, and the instance fits it. */
  ghost predicate RefFits(document: Json, leaf: Leaf, ref: Json, instance: Json, fuel: nat) {
    fuel > 0 && ref.Str? ==>
      && Survives(ref.s)
      && (Resolve(document, ref.s).Some? ==>
           Fits(document, leaf, Resolve(document, ref.s).value, instance, fuel - 1))
  }

  lemma RefMeans(document: Json, leaf: Leaf, declared: seq<Field>, prefix: nat, f: Field, instance: Json, fuel: nat)
    requires f.key == "$ref"
    ensures Keyword(document, leaf, declared, prefix, f, instance, fuel) <==>
            RefAccepts(document, leaf, f.value, instance, fuel)
  {
  }

  lemma RefFitsMeans(
    document: Json, leaf: Leaf, declared: seq<Field>, prefix: nat, f: Field, instance: Json, fuel: nat)
    requires f.key == "$ref"
    ensures CarriedEntryFits(document, leaf, declared, prefix, f, instance, fuel) <==>
            RefFits(document, leaf, f.value, instance, fuel)
  {
  }

  lemma RefAcceptsMeans(document: Json, leaf: Leaf, ref: Json, target: Json, instance: Json, fuel: nat, less: nat)
    requires ref.Str? && Resolve(document, ref.s) == Some(target) && fuel == less + 1
    ensures RefAccepts(document, leaf, ref, instance, fuel) <==> Accepts(document, leaf, target, instance, less)
  {
  }

  lemma RefFitsIf(document: Json, leaf: Leaf, ref: Json, target: Json, instance: Json, fuel: nat, less: nat)
    requires ref.Str? && Resolve(document, ref.s) == Some(target) && Survives(ref.s) && fuel == less + 1
    ensures RefFits(document, leaf, ref, instance, fuel) <==> Fits(document, leaf, target, instance, less)
  {
  }

  lemma NoRef(document: Json, leaf: Leaf, ref: Json, instance: Json, fuel: nat)
    requires fuel == 0 || !ref.Str? || Resolve(document, ref.s).None? || !Survives(ref.s)
    ensures !(RefAccepts(document, leaf, ref, instance, fuel) && RefFits(document, leaf, ref, instance, fuel))
  {
  }

  /** A surviving reference names the normalization of what it named. */
  lemma TargetNormalizes(document: Json, leaf: Leaf, ref: string)
    requires CoveredDocument(document, leaf) && Resolve(document, ref).Some? && Survives(ref)
    ensures var target := Resolve(document, ref).value;
            Resolve(Normalize(document), ref) == Some(Normalize(target)) && Covered(document, leaf, {}, target)
  {
    ResolveSurvives(document, ref);
    ResolveInNormalized(document, leaf, ref);
  }

  lemma TargetWas(document: Json, leaf: Leaf, ref: string)
    requires CoveredDocument(document, leaf) && Resolve(Normalize(document), ref).Some?
    ensures Survives(ref) && Resolve(document, ref).Some?
  {
    OnlySurvivorsResolve(document, ref);
    ResolveInNormalized(document, leaf, ref);
  }

  lemma {:induction false} RefStays(document: Json, leaf: Leaf, ref: Json, instance: Json, fuel: nat)
    requires CoveredDocument(document, leaf)
    ensures RefAccepts(document, leaf, ref, instance, fuel) && RefFits(document, leaf, ref, instance, fuel) ==>
              RefAccepts(Normalize(document), leaf, ref, instance, fuel)
    decreases fuel, ref, 0
  {
    if fuel == 0 || !ref.Str? || Resolve(document, ref.s).None? || !Survives(ref.s) {
      NoRef(document, leaf, ref, instance, fuel);
    } else {
      var less: nat := fuel - 1;
      var target := Resolve(document, ref.s).value;
      TargetStays(document, leaf, ref.s, instance, less);
      RefAcceptsMeans(document, leaf, ref, target, instance, fuel, less);
      RefFitsIf(document, leaf, ref, target, instance, fuel, less);
      RefAcceptsMeans(Normalize(document), leaf, ref, Normalize(target), instance, fuel, less);
    }
  }

  lemma {:induction false} TargetStays(document: Json, leaf: Leaf, ref: string, instance: Json, fuel: nat)
    requires CoveredDocument(document, leaf) && Resolve(document, ref).Some? && Survives(ref)
    ensures Resolve(Normalize(document), ref) == Some(Normalize(Resolve(document, ref).value))
    ensures var target := Resolve(document, ref).value;
            Accepts(document, leaf, target, instance, fuel) && Fits(document, leaf, target, instance, fuel) ==>
              Accepts(Normalize(document), leaf, Normalize(target), instance, fuel)
    decreases fuel, Resolve(document, ref).value, 3
  {
    TargetNormalizes(document, leaf, ref);
    TargetStaysAccepted(document, leaf, Resolve(document, ref).value, instance, fuel);
  }

  lemma {:induction false} TargetStaysAccepted(document: Json, leaf: Leaf, target: Json, instance: Json, fuel: nat)
    requires CoveredDocument(document, leaf) && Covered(document, leaf, {}, target)
    ensures Accepts(document, leaf, target, instance, fuel) && Fits(document, leaf, target, instance, fuel) ==>
              Accepts(Normalize(document), leaf, Normalize(target), instance, fuel)
    decreases fuel, target, 2
  {
    if Accepts(document, leaf, target, instance, fuel) && Fits(document, leaf, target, instance, fuel) {
      FittingStaysAccepted(document, leaf, {}, target, instance, fuel);
    }
  }

  /** Every entry of a normalized node comes from an entry, or completes the node. */
  lemma EntriesOfNormalized(fields: seq<Field>, g: Field)
    requires g in Normalize(Obj(fields)).fields
    ensures || g in NormalizeEntries(fields)
            || (IsObjectSchema(fields) && !Has(fields, "additionalProperties")
                && g == Field("additionalProperties", Bool(false)))
            || (IsObjectSchema(fields) && g == Field("required", Arr(KeyStrings(NormalizeMap(PropertiesOf(fields))))))
  {
    var rewritten := NormalizeEntries(fields);
    GetNormalizedEntries(fields, "additionalProperties");
    LookupInRewritten(fields);
    EntriesOfComplete(fields, rewritten, g);
  }

  lemma EntriesOfComplete(fields: seq<Field>, rewritten: seq<Field>, g: Field)
    requires g in Complete(fields, rewritten)
    ensures || g in rewritten
            || (IsObjectSchema(fields) && !Has(rewritten, "additionalProperties")
                && g == Field("additionalProperties", Bool(false)))
            || (IsObjectSchema(fields) && g == Field("required", Arr(KeyStrings(PropertiesOf(rewritten)))))
  {
    var closed := if Has(rewritten, "additionalProperties") then rewritten
                  else Put(rewritten, "additionalProperties", Bool(false));
    GetPut(rewritten, "additionalProperties", Bool(false), "properties");
    PutMembers(rewritten, "additionalProperties", Bool(false), g);
    PutMembers(closed, "required", Arr(KeyStrings(PropertiesOf(closed))), g);
  }

  lemma {:induction false} PutMembers(fields: seq<Field>, key: string, value: Json, g: Field)
    ensures g in Put(fields, key, value) ==> g in fields || g == Field(key, value)
  {
    if fields != [] && fields[0].key != key {
      PutMembers(fields[1..], key, value, g);
    }
  }

  lemma {:induction false} FittingStaysAccepted(
    document: Json, leaf: Leaf, present: set<string>, schema: Json, instance: Json, fuel: nat)
    requires CoveredDocument(document, leaf) && Covered(document, leaf, present, schema)
    requires Accepts(document, leaf, schema, instance, fuel) && Fits(document, leaf, schema, instance, fuel)
    ensures Accepts(Normalize(document), leaf, Normalize(schema), instance, fuel)
    decreases fuel, schema, 1
  {
    if schema.Obj? {
      var fields, nf := schema.fields, Normalize(schema).fields;
      SiblingsOfNormalized(fields);
      forall g | g in nf
        ensures Keyword(Normalize(document), leaf, PropertiesOf(nf), PrefixLength(nf), g, instance, fuel)
      {
        EntriesOfNormalized(fields, g);
        if g in NormalizeEntries(fields) {
          var f := SourceOf(fields, g);
          FittingEntryStays(document, leaf, present, fields, PropertiesOf(nf), f, instance, fuel);
        } else {
          CompletionHolds(document, leaf, fields, PropertiesOf(nf), g, instance, fuel);
        }
      }
    }
  }

  lemma CompletionHolds(
    document: Json, leaf: Leaf, fields: seq<Field>, declared': seq<Field>, g: Field, instance: Json, fuel: nat)
    requires IsObjectSchema(fields) && NodeFits(fields, instance) && KeysOf(declared') == KeptKeys(fields)
    requires || (!Has(fields, "additionalProperties") && g == Field("additionalProperties", Bool(false)))
             || g == Field("required", Arr(KeyStrings(declared')))
    ensures Keyword(Normalize(document), leaf, declared', PrefixLength(fields), g, instance, fuel)
  {
    if g.key == "required" && instance.Obj? {
      forall k | k in g.value.items ensures k.Str? && Has(instance.fields, k.s) {
        var i :| 0 <= i < |declared'| && k == Str(declared'[i].key);
        assert declared'[i].key in KeysOf(declared');
      }
    } else if instance.Obj? {
      forall e | e in instance.fields ensures Has(declared', e.key) {
        assert e.key in KeysOf(instance.fields);
      }
    }
  }

  /** A keyword of a visited node holds of the instance, and the instance fits it. */
  ghost predicate EntryHolds(
    document: Json, leaf: Leaf, present: set<string>, fields: seq<Field>,
    declared': seq<Field>, f: Field, instance: Json, fuel: nat)
  {
    && CoveredDocument(document, leaf) && CoveredEntry(document, leaf, present, fields, f) && NormalizeEntry(f) != []
    && KeysOf(declared') == KeptKeys(fields)
    && Keyword(document, leaf, PropertiesOf(fields), PrefixLength(fields), f, instance, fuel)
    && EntryFits(document, leaf, fields, f, instance, fuel)
  }

  lemma {:induction false} FittingEntryStays(
    document: Json, leaf: Leaf, present: set<string>, fields: seq<Field>,
    declared': seq<Field>, f: Field, instance: Json, fuel: nat)
    requires EntryHolds(document, leaf, present, fields, declared', f, instance, fuel)
    ensures Keyword(Normalize(document), leaf, declared', PrefixLength(fields),
                    NormalizeEntry(f)[0], instance, fuel)
    decreases fuel, f, 3
  {
    match f.key
    case "properties" => FittingPropertiesStay(document, leaf, present, fields, declared', f, instance, fuel);
    case "items" => FittingItemsStay(document, leaf, present, fields, declared', f, instance, fuel);
    case "prefixItems" => FittingItemsStay(document, leaf, present, fields, declared', f, instance, fuel);
    case "anyOf" => FittingBranchStays(document, leaf, present, fields, declared', f, instance, fuel);
    case "additionalProperties" => FittingOthersStay(document, leaf, present, fields, declared', f, instance, fuel);
    case "$defs" =>
    case "definitions" =>
    case _ => FittingCarriedStays(document, leaf, present, fields, declared', f, instance, fuel);
  }

  lemma {:induction false} FittingPropertiesStay(
    document: Json, leaf: Leaf, present: set<string>, fields: seq<Field>,
    declared': seq<Field>, f: Field, instance: Json, fuel: nat)
    requires EntryHolds(document, leaf, present, fields, declared', f, instance, fuel) && f.key == "properties"
    ensures Keyword(Normalize(document), leaf, declared', PrefixLength(fields),
                    NormalizeEntry(f)[0], instance, fuel)
    decreases fuel, f, 0
  {
    PropertiesBecome(f.value);
    assert f == Field("properties", f.value);
    if instance.Obj? {
      forall g | g in NormalizeMap(f.value.fields) && Has(instance.fields, g.key)
        ensures Accepts(Normalize(document), leaf, g.value, Get(instance.fields, g.key).value, fuel)
      {
        var e := SourceInMap(f.value.fields, g);
        FittingStaysAccepted(document, leaf, {}, e.value, Get(instance.fields, e.key).value, fuel);
      }
    }
  }

  lemma {:induction false} FittingItemsStay(
    document: Json, leaf: Leaf, present: set<string>, fields: seq<Field>,
    declared': seq<Field>, f: Field, instance: Json, fuel: nat)
    requires EntryHolds(document, leaf, present, fields, declared', f, instance, fuel)
    requires f.key == "items" || f.key == "prefixItems"
    ensures Keyword(Normalize(document), leaf, declared', PrefixLength(fields),
                    NormalizeEntry(f)[0], instance, fuel)
    decreases fuel, f, 0
  {
    var n := Normalize(document);
    ItemsBecome(f);
    if instance.Arr? && f.key == "items" {
      forall i | PrefixLength(fields) <= i < |instance.items|
        ensures Accepts(n, leaf, Normalize(f.value), instance.items[i], fuel)
      {
        FittingStaysAccepted(document, leaf, {}, f.value, instance.items[i], fuel);
      }
    } else if instance.Arr? {
      var items := f.value.items;
      forall i | 0 <= i < |items| && i < |instance.items|
        ensures Accepts(n, leaf, NormalizeAll(items)[i], instance.items[i], fuel)
      {
        FittingStaysAccepted(document, leaf, {}, items[i], instance.items[i], fuel);
      }
    }
  }

  lemma ItemsBecome(f: Field)
    ensures f.key == "items" ==> NormalizeEntry(f) == [Field("items", Normalize(f.value))]
    ensures f.key == "prefixItems" && f.value.Arr? ==>
              NormalizeEntry(f) == [Field("prefixItems", Arr(NormalizeAll(f.value.items)))]
  {
  }

  lemma {:induction false} FittingBranchStays(
    document: Json, leaf: Leaf, present: set<string>, fields: seq<Field>,
    declared': seq<Field>, f: Field, instance: Json, fuel: nat)
    requires EntryHolds(document, leaf, present, fields, declared', f, instance, fuel) && f.key == "anyOf"
    ensures Keyword(Normalize(document), leaf, declared', PrefixLength(fields),
                    NormalizeEntry(f)[0], instance, fuel)
    decreases fuel, f, 0
  {
    var b :| b in f.value.items && !RequiredOnly(Normalize(b))
             && Accepts(document, leaf, b, instance, fuel) && Fits(document, leaf, b, instance, fuel);
    FittingStaysAccepted(document, leaf, KeptKeys(fields) + present, b, instance, fuel);
    BranchIsKept(f, b);
  }

  lemma BranchIsKept(f: Field, b: Json)
    requires f.key == "anyOf" && f.value.Arr? && b in f.value.items && !RequiredOnly(Normalize(b))
    ensures NormalizeEntry(f) != [] && NormalizeEntry(f)[0].key == "anyOf" && NormalizeEntry(f)[0].value.Arr?
    ensures Normalize(b) in NormalizeEntry(f)[0].value.items
  {
    var i :| 0 <= i < |f.value.items| && b == f.value.items[i];
    assert NormalizeAll(f.value.items)[i] == Normalize(b);
  }

  lemma {:induction false} FittingOthersStay(
    document: Json, leaf: Leaf, present: set<string>, fields: seq<Field>,
    declared': seq<Field>, f: Field, instance: Json, fuel: nat)
    requires EntryHolds(document, leaf, present, fields, declared', f, instance, fuel)
    requires f.key == "additionalProperties"
    ensures Keyword(Normalize(document), leaf, declared', PrefixLength(fields),
                    NormalizeEntry(f)[0], instance, fuel)
    decreases fuel, f, 0
  {
    CarriedEntryIsKept(f);
    if instance.Obj? {
      forall e | e in instance.fields && !Has(declared', e.key)
        ensures Accepts(Normalize(document), leaf, f.value, e.value, fuel)
      {
        assert e.key !in KeysOf(declared');
        CarriedStaysAccepted(document, leaf, f.value, e.value, fuel);
      }
    }
  }

  /** The keywords that the normalizer never rewrites. */
  predicate Carried(key: string) {
    && key != "properties" && key != "$defs" && key != "definitions" && key != "items" && key != "prefixItems"
    && key != "oneOf" && key != "anyOf"
  }

  lemma CarriedEntryIsKept(f: Field)
    requires Carried(f.key)
    ensures NormalizeEntry(f) == [f]
  {
  }

  lemma {:induction false} FittingCarriedStays(
    document: Json, leaf: Leaf, present: set<string>, fields: seq<Field>,
    declared': seq<Field>, f: Field, instance: Json, fuel: nat)
    requires EntryHolds(document, leaf, present, fields, declared', f, instance, fuel)
    requires Carried(f.key) && f.key != "additionalProperties"
    ensures Keyword(Normalize(document), leaf, declared', PrefixLength(fields),
                    NormalizeEntry(f)[0], instance, fuel)
    decreases fuel, f, 2
  {
    CarriedEntryIsKept(f);
    CarriedIsUntouched(document, leaf, present, fields, f);
    CarriedEntryIs(document, leaf, fields, f, instance, fuel);
    CarriedKeywordStays(document, leaf, PropertiesOf(fields), PrefixLength(fields), f, instance, fuel);
    DeclaredDoesNotMatter(
      Normalize(document), leaf, PropertiesOf(fields), declared', PrefixLength(fields), f, instance, fuel);
  }

  lemma CarriedIsUntouched(document: Json, leaf: Leaf, present: set<string>, fields: seq<Field>, f: Field)
    requires CoveredEntry(document, leaf, present, fields, f) && Carried(f.key)
    ensures UntouchedEntry(f)
  {
  }

  lemma CarriedEntryIs(document: Json, leaf: Leaf, fields: seq<Field>, f: Field, instance: Json, fuel: nat)
    requires Carried(f.key) && f.key != "additionalProperties"
    ensures EntryFits(document, leaf, fields, f, instance, fuel) <==>
            CarriedEntryFits(document, leaf, PropertiesOf(fields), PrefixLength(fields), f, instance, fuel)
  {
  }

  lemma DeclaredDoesNotMatter(
    document: Json, leaf: Leaf, declared: seq<Field>, declared': seq<Field>,
    prefix: nat, f: Field, instance: Json, fuel: nat)
    requires f.key != "additionalProperties"
    ensures Keyword(document, leaf, declared, prefix, f, instance, fuel) <==>
            Keyword(document, leaf, declared', prefix, f, instance, fuel)
  {
  }

  // ----- an instance that is accepted after normalizing fits

  lemma {:induction false} CarriedAcceptedFits(document: Json, leaf: Leaf, schema: Json, instance: Json, fuel: nat)
    requires CoveredDocument(document, leaf) && Untouched(schema)
    requires Accepts(Normalize(document), leaf, schema, instance, fuel)
    ensures CarriedFits(document, leaf, schema, instance, fuel)
    decreases fuel, schema, 1
  {
    if schema.Obj? {
      var declared, prefix := PropertiesOf(schema.fields), PrefixLength(schema.fields);
      forall f | f in schema.fields ensures CarriedEntryFits(document, leaf, declared, prefix, f, instance, fuel) {
        CarriedKeywordFits(document, leaf, declared, prefix, f, instance, fuel);
      }
    }
  }

  /** A keyword of a carried part holds of the instance after normalizing. */
  ghost predicate CarriedAccepted(
    document: Json, leaf: Leaf, declared: seq<Field>, prefix: nat, f: Field, instance: Json, fuel: nat)
  {
    && CoveredDocument(document, leaf) && UntouchedEntry(f)
    && Keyword(Normalize(document), leaf, declared, prefix, f, instance, fuel)
  }

  lemma {:induction false} CarriedKeywordFits(
    document: Json, leaf: Leaf, declared: seq<Field>, prefix: nat, f: Field, instance: Json, fuel: nat)
    requires CarriedAccepted(document, leaf, declared, prefix, f, instance, fuel)
    ensures CarriedEntryFits(document, leaf, declared, prefix, f, instance, fuel)
    decreases fuel, f, 1
  {
    match f.key
    case "properties" => CarriedFieldsFit(document, leaf, declared, prefix, f, instance, fuel);
    case "additionalProperties" => CarriedFieldsFit(document, leaf, declared, prefix, f, instance, fuel);
    case "items" => CarriedItemsFit(document, leaf, declared, prefix, f, instance, fuel);
    case "prefixItems" => CarriedItemsFit(document, leaf, declared, prefix, f, instance, fuel);
    case "anyOf" => CarriedBranchesFit(document, leaf, declared, prefix, f, instance, fuel);
    case "allOf" => CarriedBranchesFit(document, leaf, declared, prefix, f, instance, fuel);
    case "$ref" => CarriedRefFits(document, leaf, declared, prefix, f, instance, fuel);
    case _ =>
  }

  lemma {:induction false} CarriedFieldsFit(
    document: Json, leaf: Leaf, declared: seq<Field>, prefix: nat, f: Field, instance: Json, fuel: nat)
    requires CarriedAccepted(document, leaf, declared, prefix, f, instance, fuel)
    requires f.key == "properties" || f.key == "additionalProperties"
    ensures CarriedEntryFits(document, leaf, declared, prefix, f, instance, fuel)
    decreases fuel, f, 0
  {
    if instance.Obj? && f.key == "properties" {
      forall e | e in f.value.fields && Has(instance.fields, e.key)
        ensures CarriedFits(document, leaf, e.value, Get(instance.fields, e.key).value, fuel)
      {
        CarriedAcceptedFits(document, leaf, e.value, Get(instance.fields, e.key).value, fuel);
      }
    } else if instance.Obj? {
      forall e | e in instance.fields && !Has(declared, e.key)
        ensures CarriedFits(document, leaf, f.value, e.value, fuel)
      {
        CarriedAcceptedFits(document, leaf, f.value, e.value, fuel);
      }
    }
  }

  lemma {:induction false} CarriedItemsFit(
    document: Json, leaf: Leaf, declared: seq<Field>, prefix: nat, f: Field, instance: Json, fuel: nat)
    requires CarriedAccepted(document, leaf, declared, prefix, f, instance, fuel)
    requires f.key == "items" || f.key == "prefixItems"
    ensures CarriedEntryFits(document, leaf, declared, prefix, f, instance, fuel)
    decreases fuel, f, 0
  {
    if instance.Arr? && f.key == "items" {
      forall i | prefix <= i < |instance.items| ensures CarriedFits(document, leaf, f.value, instance.items[i], fuel) {
        CarriedAcceptedFits(document, leaf, f.value, instance.items[i], fuel);
      }
    } else if instance.Arr? {
      forall i | 0 <= i < |f.value.items| && i < |instance.items|
        ensures CarriedFits(document, leaf, f.value.items[i], instance.items[i], fuel)
      {
        CarriedAcceptedFits(document, leaf, f.value.items[i], instance.items[i], fuel);
      }
    }
  }

  lemma {:induction false} CarriedBranchesFit(
    document: Json, leaf: Leaf, declared: seq<Field>, prefix: nat, f: Field, instance: Json, fuel: nat)
    requires CarriedAccepted(document, leaf, declared, prefix, f, instance, fuel)
    requires f.key == "anyOf" || f.key == "allOf"
    ensures CarriedEntryFits(document, leaf, declared, prefix, f, instance, fuel)
    decreases fuel, f, 0
  {
    if f.key == "anyOf" {
      var v :| v in f.value.items && Accepts(Normalize(document), leaf, v, instance, fuel);
      UntouchedRefines(document, leaf, v, instance, fuel);
      CarriedAcceptedFits(document, leaf, v, instance, fuel);
    } else {
      forall v | v in f.value.items ensures CarriedFits(document, leaf, v, instance, fuel) {
        CarriedAcceptedFits(document, leaf, v, instance, fuel);
      }
    }
  }

  lemma {:induction false} AcceptedRefFits(document: Json, leaf: Leaf, ref: Json, instance: Json, fuel: nat)
    requires CoveredDocument(document, leaf)
    ensures RefAccepts(Normalize(document), leaf, ref, instance, fuel) ==>
              RefFits(document, leaf, ref, instance, fuel)
    decreases fuel, ref, 0
  {
    if fuel > 0 && ref.Str? && Resolve(Normalize(document), ref.s).Some? {
      var less: nat := fuel - 1;
      TargetWas(document, leaf, ref.s);
      var target := Resolve(document, ref.s).value;
      AcceptedTargetFits(document, leaf, ref.s, instance, less);
      RefAcceptsMeans(Normalize(document), leaf, ref, Normalize(target), instance, fuel, less);
      RefFitsIf(document, leaf, ref, target, instance, fuel, less);
    } else {
      NoRefAccepts(Normalize(document), leaf, ref, instance, fuel);
    }
  }

  lemma NoRefAccepts(document: Json, leaf: Leaf, ref: Json, instance: Json, fuel: nat)
    requires fuel == 0 || !ref.Str? || Resolve(document, ref.s).None?
    ensures !RefAccepts(document, leaf, ref, instance, fuel)
  {
  }

  lemma {:induction false} AcceptedTargetFits(document: Json, leaf: Leaf, ref: string, instance: Json, fuel: nat)
    requires CoveredDocument(document, leaf) && Resolve(document, ref).Some? && Survives(ref)
    ensures var target := Resolve(document, ref).value;
            && Resolve(Normalize(document), ref) == Some(Normalize(target))
            && (Accepts(Normalize(document), leaf, Normalize(target), instance, fuel) ==>
                 Fits(document, leaf, target, instance, fuel))
    decreases fuel, Resolve(document, ref).value, 2
  {
    var target := Resolve(document, ref).value;
    TargetNormalizes(document, leaf, ref);
    if Accepts(Normalize(document), leaf, Normalize(target), instance, fuel) {
      AcceptedFits(document, leaf, {}, target, instance, fuel);
    }
  }

  lemma {:induction false} CarriedRefFits(
    document: Json, leaf: Leaf, declared: seq<Field>, prefix: nat, f: Field, instance: Json, fuel: nat)
    requires CarriedAccepted(document, leaf, declared, prefix, f, instance, fuel) && f.key == "$ref"
    ensures CarriedEntryFits(document, leaf, declared, prefix, f, instance, fuel)
    decreases fuel, f, 0
  {
    RefMeans(Normalize(document), leaf, declared, prefix, f, instance, fuel);
    AcceptedRefFits(document, leaf, f.value, instance, fuel);
    RefFitsMeans(document, leaf, declared, prefix, f, instance, fuel);
  }

  lemma {:induction false} AcceptedFits(
    document: Json, leaf: Leaf, present: set<string>, schema: Json, instance: Json, fuel: nat)
    requires CoveredDocument(document, leaf) && Covered(document, leaf, present, schema) && Provides(instance, present)
    requires Accepts(Normalize(document), leaf, Normalize(schema), instance, fuel)
    ensures Fits(document, leaf, schema, instance, fuel)
    decreases fuel, schema, 1
  {
    if schema.Obj? {
      var fields, nf := schema.fields, Normalize(schema).fields;
      AcceptedNodeFits(document, leaf, fields, instance, fuel);
      SiblingsOfNormalized(fields);
      forall f | f in fields ensures EntryFits(document, leaf, fields, f, instance, fuel) {
        if NormalizeEntry(f) != [] && (f.key == "required" ==> KeptKeys(fields) == {}) {
          RewritingHolds(document, leaf, fields, f, instance, fuel);
          AcceptedEntryFits(document, leaf, present, fields, PropertiesOf(nf), f, instance, fuel);
        } else {
          DroppedEntryFits(document, leaf, present, fields, f, instance, fuel);
        }
      }
    }
  }

  lemma DroppedEntryFits(
    document: Json, leaf: Leaf, present: set<string>, fields: seq<Field>, f: Field, instance: Json, fuel: nat)
    requires CoveredEntry(document, leaf, present, fields, f) && (NormalizeEntry(f) == [] || f.key == "required")
    ensures EntryFits(document, leaf, fields, f, instance, fuel)
  {
  }

  lemma AcceptedNodeFits(document: Json, leaf: Leaf, fields: seq<Field>, instance: Json, fuel: nat)
    requires Accepts(Normalize(document), leaf, Normalize(Obj(fields)), instance, fuel)
    ensures NodeFits(fields, instance)
  {
    if KeptKeys(fields) != {} {
      AllKeptArePresent(document, leaf, fields, instance, fuel);
    }
    if IsObjectSchema(fields) && instance.Obj? && !Has(fields, "additionalProperties") {
      ClosingIsInNormalized(fields);
      ClosedIsKept(document, leaf, fields, instance, fuel);
    }
  }

  lemma ClosedIsKept(document: Json, leaf: Leaf, fields: seq<Field>, instance: Json, fuel: nat)
    requires Field("additionalProperties", Bool(false)) in Normalize(Obj(fields)).fields && instance.Obj?
    requires Accepts(Normalize(document), leaf, Normalize(Obj(fields)), instance, fuel)
    ensures KeysOf(instance.fields) <= KeptKeys(fields)
  {
    var nf := Normalize(Obj(fields)).fields;
    SiblingsOfNormalized(fields);
    assert Keyword(Normalize(document), leaf, PropertiesOf(nf), PrefixLength(nf),
                   Field("additionalProperties", Bool(false)), instance, fuel);
    forall e | e in instance.fields ensures e.key in KeptKeys(fields) {
      assert !Accepts(Normalize(document), leaf, Bool(false), e.value, fuel);
      assert Has(PropertiesOf(nf), e.key);
    }
  }

  /** The rewriting of a keyword of a visited node holds of the instance. */
  ghost predicate EntryAccepted(
    document: Json, leaf: Leaf, present: set<string>, fields: seq<Field>,
    declared': seq<Field>, f: Field, instance: Json, fuel: nat)
  {
    && CoveredDocument(document, leaf) && CoveredEntry(document, leaf, present, fields, f) && NormalizeEntry(f) != []
    && KeysOf(declared') == KeptKeys(fields) && Provides(instance, KeptKeys(fields) + present)
    && Keyword(Normalize(document), leaf, declared', PrefixLength(fields), NormalizeEntry(f)[0], instance, fuel)
  }

  lemma {:induction false} AcceptedEntryFits(
    document: Json, leaf: Leaf, present: set<string>, fields: seq<Field>,
    declared': seq<Field>, f: Field, instance: Json, fuel: nat)
    requires EntryAccepted(document, leaf, present, fields, declared', f, instance, fuel)
    ensures EntryFits(document, leaf, fields, f, instance, fuel)
    decreases fuel, f, 3
  {
    match f.key
    case "properties" => AcceptedPropertiesFit(document, leaf, present, fields, declared', f, instance, fuel);
    case "items" => AcceptedItemsFit(document, leaf, present, fields, declared', f, instance, fuel);
    case "prefixItems" => AcceptedItemsFit(document, leaf, present, fields, declared', f, instance, fuel);
    case "anyOf" => AcceptedBranchFits(document, leaf, present, fields, declared', f, instance, fuel);
    case "additionalProperties" => AcceptedOthersFit(document, leaf, present, fields, declared', f, instance, fuel);
    case "$defs" =>
    case "definitions" =>
    case _ => AcceptedCarriedFits(document, leaf, present, fields, declared', f, instance, fuel);
  }

  lemma {:induction false} AcceptedPropertiesFit(
    document: Json, leaf: Leaf, present: set<string>, fields: seq<Field>,
    declared': seq<Field>, f: Field, instance: Json, fuel: nat)
    requires EntryAccepted(document, leaf, present, fields, declared', f, instance, fuel) && f.key == "properties"
    ensures EntryFits(document, leaf, fields, f, instance, fuel)
    decreases fuel, f, 0
  {
    PropertiesBecome(f.value);
    assert f == Field("properties", f.value);
    if f.value.Obj? && instance.Obj? {
      forall e | e in f.value.fields && e.key != PROTO && Has(instance.fields, e.key)
        ensures Fits(document, leaf, e.value, Get(instance.fields, e.key).value, fuel)
      {
        RewrittenIsInMap(f.value.fields, e);
        AcceptedFits(document, leaf, {}, e.value, Get(instance.fields, e.key).value, fuel);
      }
    }
  }

  lemma {:induction false} AcceptedItemsFit(
    document: Json, leaf: Leaf, present: set<string>, fields: seq<Field>,
    declared': seq<Field>, f: Field, instance: Json, fuel: nat)
    requires EntryAccepted(document, leaf, present, fields, declared', f, instance, fuel)
    requires f.key == "items" || f.key == "prefixItems"
    ensures EntryFits(document, leaf, fields, f, instance, fuel)
    decreases fuel, f, 0
  {
    ItemsBecome(f);
    if instance.Arr? && f.key == "items" {
      forall i | PrefixLength(fields) <= i < |instance.items|
        ensures Fits(document, leaf, f.value, instance.items[i], fuel)
      {
        AcceptedFits(document, leaf, {}, f.value, instance.items[i], fuel);
      }
    } else if instance.Arr? && f.value.Arr? {
      var items := f.value.items;
      forall i | 0 <= i < |items| && i < |instance.items|
        ensures Fits(document, leaf, items[i], instance.items[i], fuel)
      {
        assert Accepts(Normalize(document), leaf, NormalizeAll(items)[i], instance.items[i], fuel);
        AcceptedFits(document, leaf, {}, items[i], instance.items[i], fuel);
      }
    }
  }

  lemma {:induction false} AcceptedBranchFits(
    document: Json, leaf: Leaf, present: set<string>, fields: seq<Field>,
    declared': seq<Field>, f: Field, instance: Json, fuel: nat)
    requires EntryAccepted(document, leaf, present, fields, declared', f, instance, fuel) && f.key == "anyOf"
    ensures EntryFits(document, leaf, fields, f, instance, fuel)
    decreases fuel, f, 0
  {
    if f.value.Arr? {
      var v :| v in NormalizeEntry(f)[0].value.items && Accepts(Normalize(document), leaf, v, instance, fuel);
      var branch := KeptBranch(f, v);
      KeptIsNotDropped(f, v);
      NormalizedRefines(document, leaf, KeptKeys(fields) + present, branch, instance, fuel);
      AcceptedFits(document, leaf, KeptKeys(fields) + present, branch, instance, fuel);
    }
  }

  lemma KeptIsNotDropped(f: Field, v: Json)
    requires f.key == "anyOf" && f.value.Arr? && NormalizeEntry(f) != [] && NormalizeEntry(f)[0].value.Arr?
    requires v in NormalizeEntry(f)[0].value.items
    ensures !RequiredOnly(v)
  {
  }

  lemma {:induction false} AcceptedOthersFit(
    document: Json, leaf: Leaf, present: set<string>, fields: seq<Field>,
    declared': seq<Field>, f: Field, instance: Json, fuel: nat)
    requires EntryAccepted(document, leaf, present, fields, declared', f, instance, fuel)
    requires f.key == "additionalProperties"
    ensures EntryFits(document, leaf, fields, f, instance, fuel)
    decreases fuel, f, 0
  {
    CarriedEntryIsKept(f);
    if instance.Obj? {
      forall e | e in instance.fields && e.key !in KeptKeys(fields)
        ensures Accepts(document, leaf, f.value, e.value, fuel) && CarriedFits(document, leaf, f.value, e.value, fuel)
      {
        assert !Has(declared', e.key) by { assert e.key !in KeysOf(declared'); }
        UntouchedRefines(document, leaf, f.value, e.value, fuel);
        CarriedAcceptedFits(document, leaf, f.value, e.value, fuel);
      }
    }
  }

  lemma {:induction false} AcceptedCarriedFits(
    document: Json, leaf: Leaf, present: set<string>, fields: seq<Field>,
    declared': seq<Field>, f: Field, instance: Json, fuel: nat)
    requires EntryAccepted(document, leaf, present, fields, declared', f, instance, fuel)
    requires Carried(f.key) && f.key != "additionalProperties"
    ensures EntryFits(document, leaf, fields, f, instance, fuel)
    decreases fuel, f, 2
  {
    CarriedEntryIsKept(f);
    CarriedIsUntouched(document, leaf, present, fields, f);
    DeclaredDoesNotMatter(
      Normalize(document), leaf, PropertiesOf(fields), declared', PrefixLength(fields), f, instance, fuel);
    CarriedKeywordFits(document, leaf, PropertiesOf(fields), PrefixLength(fields), f, instance, fuel);
    CarriedEntryIs(document, leaf, fields, f, instance, fuel);
  }

  // ----- the theorem

  /**
   Reference use by reference use, the normalized document accepts exactly what the original
   accepts and what fits.
   */
  lemma NormalizedAcceptsExactly(document: Json, leaf: Leaf, instance: Json, fuel: nat)
    requires CoveredDocument(document, leaf)
    ensures Accepts(Normalize(document), leaf, Normalize(document), instance, fuel) <==>
            Accepts(document, leaf, document, instance, fuel) && Fits(document, leaf, document, instance, fuel)
  {
    if Accepts(Normalize(document), leaf, Normalize(document), instance, fuel) {
      NormalizedRefines(document, leaf, {}, document, instance, fuel);
      AcceptedFits(document, leaf, {}, document, instance, fuel);
    }
    if Accepts(document, leaf, document, instance, fuel) && Fits(document, leaf, document, instance, fuel) {
      FittingStaysAccepted(document, leaf, {}, document, instance, fuel);
    }
  }

  /** So an instance validates against the normalized document exactly if it does so by a reading that it fits. */
  lemma ValidAfterNormalizingIff(document: Json, leaf: Leaf, instance: Json)
    requires CoveredDocument(document, leaf)
    ensures Valid(Normalize(document), leaf, instance) <==>
            exists fuel: nat ::
              Accepts(document, leaf, document, instance, fuel) && Fits(document, leaf, document, instance, fuel)
  {
    if Valid(Normalize(document), leaf, instance) {
      var fuel: nat :| Accepts(Normalize(document), leaf, Normalize(document), instance, fuel);
      NormalizedAcceptsExactly(document, leaf, instance, fuel);
    }
    if fuel: nat :|
      Accepts(document, leaf, document, instance, fuel) && Fits(document, leaf, document, instance, fuel)
    {
      NormalizedAcceptsExactly(document, leaf, instance, fuel);
    }
  }
}
