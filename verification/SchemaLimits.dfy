/**
 Where the refinement of meaning stops: the exact strength of the conditions about required
 keys, about emptied `anyOf` lists and about properties named `__proto__`, and for each of
 them an input that the normalizer gets wrong without it.
 */
module SchemaLimits {
  import opened Options
  import opened JsonValues
  import opened SchemaNormalizer
  import opened SchemaSemantics

  lemma ProvidesItself(properties: seq<Field>)
    ensures Provides(Obj(properties), KeysOf(properties))
  {
  }

  // ----- required keys

  /**
   Overwriting `required` with the property keys implies the old `required` on every
   instance exactly when the old one named declared properties only.
   */
  lemma OverwritingRequiredIsSafeIff(document: Json, leaf: Leaf, f: Field, properties: seq<Field>)
    requires f.key == "required" && f.value.Arr?
    ensures RequiresWithin(f, KeysOf(properties)) <==>
            forall instance | Provides(instance, KeysOf(properties)) ::
              Keyword(document, leaf, properties, 0, f, instance, 0)
  {
    if forall instance | Provides(instance, KeysOf(properties)) ::
        Keyword(document, leaf, properties, 0, f, instance, 0) {
      ProvidesItself(properties);
      assert Keyword(document, leaf, properties, 0, f, Obj(properties), 0);
    }
  }

  // ----- emptied lists

  /** Object schemas get `additionalProperties`, so they never become required-only. */
  lemma ObjectSchemasKeepTheirShape(fields: seq<Field>)
    requires IsObjectSchema(fields)
    ensures !RequiredOnly(Normalize(Obj(fields)))
  {
    LookupInNormalized(fields);
    ClosedNodesAreNotRequiredOnly(Normalize(Obj(fields)));
  }

  lemma ClosedNodesAreNotRequiredOnly(node: Json)
    requires node.Obj? && Has(node.fields, "additionalProperties")
    ensures !RequiredOnly(node)
  {
    var f :| f in node.fields && f.key == "additionalProperties";
    assert f.key != "required" && f.key !in ANNOTATIONS;
  }

  lemma RewritingKeepsRequired(fields: seq<Field>, r: Field)
    requires r.key == "required"
    ensures r in NormalizeEntries(fields) <==> r in fields
  {
    assert NormalizeEntry(r) == [r];
    if r in fields {
      RewrittenIsIn(fields, r, r);
    }
    if r in NormalizeEntries(fields) {
      var f := SourceOf(fields, r);
    }
  }

  /** A branch that becomes required-only keeps its own `required` lists. */
  lemma RequiredOnlyKeepsRequired(branch: Json, r: Field)
    requires branch.Obj? && RequiredOnly(Normalize(branch)) && r.key == "required"
    ensures r in Normalize(branch).fields <==> r in branch.fields
  {
    if IsObjectSchema(branch.fields) {
      ObjectSchemasKeepTheirShape(branch.fields);
      assert false;
    }
    RewritingKeepsRequired(branch.fields, r);
  }

  /** The object with just the declared properties tells which branches stay within them. */
  lemma AcceptingBranchIsWithin(document: Json, leaf: Leaf, branch: Json, properties: seq<Field>)
    requires branch.Obj? && RequiredOnly(Normalize(branch)) && Accepts(document, leaf, branch, Obj(properties), 0)
    ensures RequiresOnlyWithin(Normalize(branch), KeysOf(properties))
  {
    forall r | r in Normalize(branch).fields && r.key == "required" ensures RequiresWithin(r, KeysOf(properties)) {
      RequiredOnlyKeepsRequired(branch, r);
      assert Keyword(document, leaf, PropertiesOf(branch.fields), PrefixLength(branch.fields), r, Obj(properties), 0);
    }
  }

  /**
   Deleting an `anyOf` whose branches have all become required-only, by themselves or by losing
   an `anyOf` of their own, is implied by the property keys exactly when one branch has come to
   require declared properties only.
   */
  lemma DeletingAnyOfIsSafeIff(document: Json, leaf: Leaf, f: Field, properties: seq<Field>)
    requires f.key == "anyOf" && f.value.Arr? && CoveredDocument(document, leaf)
    requires forall b | b in f.value.items ::
             RequiredOnly(Normalize(b)) && Covered(document, leaf, KeysOf(properties), b)
    ensures SafelyEmptied(f.value.items, KeysOf(properties)) <==>
            forall instance | Provides(instance, KeysOf(properties)) ::
              Keyword(document, leaf, properties, 0, f, instance, 0)
  {
    var keys, items := KeysOf(properties), f.value.items;
    AllDropped(items);
    if b :| b in items && RequiresOnlyWithin(Normalize(b), keys) {
      forall instance | Provides(instance, keys) ensures Keyword(document, leaf, properties, 0, f, instance, 0) {
        BranchIsImplied(document, leaf, b, keys, instance);
      }
    }
    if forall instance :: Provides(instance, keys) ==> Keyword(document, leaf, properties, 0, f, instance, 0) {
      ProvidesItself(properties);
      assert Keyword(document, leaf, properties, 0, f, Obj(properties), 0);
      var b := AcceptingBranchOf(document, leaf, f, properties);
    }
  }

  lemma BranchIsImplied(document: Json, leaf: Leaf, b: Json, keys: set<string>, instance: Json)
    requires CoveredDocument(document, leaf) && Covered(document, leaf, keys, b) && Provides(instance, keys)
    requires RequiresOnlyWithin(Normalize(b), keys)
    ensures Accepts(document, leaf, b, instance, 0)
  {
    RequiredOnlyAccepts(Normalize(document), leaf, Normalize(b), keys, instance, 0);
    NormalizedRefines(document, leaf, keys, b, instance, 0);
  }

  lemma AcceptingBranchOf(document: Json, leaf: Leaf, f: Field, properties: seq<Field>) returns (b: Json)
    requires f.key == "anyOf" && f.value.Arr? && forall v | v in f.value.items :: RequiredOnly(Normalize(v))
    requires Keyword(document, leaf, properties, 0, f, Obj(properties), 0)
    ensures b in f.value.items && RequiresOnlyWithin(Normalize(b), KeysOf(properties))
  {
    b :| b in f.value.items && Accepts(document, leaf, b, Obj(properties), 0);
    BranchesAreRecords(b);
    AcceptingBranchIsWithin(document, leaf, b, properties);
  }

  lemma BranchesAreRecords(branch: Json)
    requires RequiredOnly(Normalize(branch))
    ensures branch.Obj?
  {
  }

  lemma {:induction false} AllDropped(items: seq<Json>)
    requires forall b | b in items :: RequiredOnly(Normalize(b))
    ensures DropRequiredOnly(NormalizeAll(items)) == []
  {
    if items != [] {
      assert items[0] in items;
      assert NormalizeAll(items)[1..] == NormalizeAll(items[1..]);
      AllDropped(items[1..]);
    }
  }

  // ----- inputs outside the theorem

  function OnlyRequires(key: string): Json {
    Obj([Field("required", Arr([Str(key)]))])
  }

  const DECLARES_A := Field("properties", Obj([Field("a", Bool(true))]))
  const CLOSED := Field("additionalProperties", Bool(false))

  function ClosedOverA(required: string): Json {
    Obj([Field("required", Arr([Str(required)])), DECLARES_A, CLOSED])
  }

  /** `required` names a key that is not declared: the normalizer forgets it. */
  lemma UndeclaredRequirementIsLost(leaf: Leaf)
    ensures var instance := Obj([Field("a", Null)]);
            Valid(Normalize(ClosedOverA("b")), leaf, instance) && !Valid(ClosedOverA("b"), leaf, instance)
  {
    NormalizeClosedOverA("b");
    AcceptsClosedOverA(leaf);
    forall fuel: nat ensures !Accepts(ClosedOverA("b"), leaf, ClosedOverA("b"), Obj([Field("a", Null)]), fuel) {
      RejectsClosedOverB(leaf, fuel);
    }
  }

  lemma ClosedEntries()
    ensures NormalizeEntries([DECLARES_A, CLOSED]) == [DECLARES_A, CLOSED]
  {
    assert NormalizeMap([Field("a", Bool(true))]) == [Field("a", Bool(true))];
    assert [DECLARES_A, CLOSED][1..] == [CLOSED];
    assert NormalizeEntries([CLOSED]) == [CLOSED];
  }

  lemma NormalizeClosedOverA(required: string)
    ensures Normalize(ClosedOverA(required)) == ClosedOverA("a")
  {
    var fields := ClosedOverA(required).fields;
    ClosedEntries();
    assert fields[1..] == [DECLARES_A, CLOSED];
    assert NormalizeEntries(fields) == fields;
    CompleteClosed(fields, fields[0].value);
  }

  /** A closed node that declares its keys only gets a new `required`. */
  lemma CompleteClosed(fields: seq<Field>, required: Json)
    requires fields == [Field("required", required), DECLARES_A, CLOSED]
    ensures Complete(fields, fields) == [Field("required", Arr([Str("a")])), DECLARES_A, CLOSED]
  {
    assert Has(fields, "additionalProperties") by { assert CLOSED in fields; }
    assert Get(fields, "properties") == Some(DECLARES_A.value);
    assert KeyStrings(DECLARES_A.value.fields) == [Str("a")];
  }

  lemma AcceptsClosedOverA(leaf: Leaf)
    ensures Valid(ClosedOverA("a"), leaf, Obj([Field("a", Null)]))
  {
    var schema, instance := ClosedOverA("a"), Obj([Field("a", Null)]);
    assert PropertiesOf(schema.fields) == DECLARES_A.value.fields;
    forall f | f in schema.fields
      ensures Keyword(schema, leaf, DECLARES_A.value.fields, PrefixLength(schema.fields), f, instance, 0)
    {
      KeywordOfClosedOverA(schema, leaf, f, instance, PrefixLength(schema.fields));
    }
    assert Accepts(schema, leaf, schema, instance, 0);
  }

  lemma KeywordOfClosedOverA(document: Json, leaf: Leaf, f: Field, instance: Json, prefix: nat)
    requires f == Field("required", Arr([Str("a")])) || f == DECLARES_A || f == CLOSED
    requires instance == Obj([Field("a", Null)])
    ensures Keyword(document, leaf, DECLARES_A.value.fields, prefix, f, instance, 0)
  {
    assert Field("a", Null) in instance.fields;
    assert Field("a", Bool(true)) in DECLARES_A.value.fields;
  }

  lemma RejectsClosedOverB(leaf: Leaf, fuel: nat)
    ensures !Accepts(ClosedOverA("b"), leaf, ClosedOverA("b"), Obj([Field("a", Null)]), fuel)
  {
    var schema, instance := ClosedOverA("b"), Obj([Field("a", Null)]);
    var required := Field("required", Arr([Str("b")]));
    assert Str("b") in required.value.items;
    assert required == schema.fields[0] && required in schema.fields;
    assert !Keyword(schema, leaf, PropertiesOf(schema.fields), PrefixLength(schema.fields), required, instance, fuel);
  }

  /** An `anyOf` of requirements on a node without properties disappears. */
  lemma AnyOfWithoutPropertiesIsLost(leaf: Leaf)
    ensures var schema := Obj([Field("anyOf", Arr([OnlyRequires("a")]))]);
            Valid(Normalize(schema), leaf, Obj([])) && !Valid(schema, leaf, Obj([]))
  {
    var schema := Obj([Field("anyOf", Arr([OnlyRequires("a")]))]);
    NormalizeOnlyRequires();
    OnlyBranchIsDropped(OnlyRequires("a"));
    EmptySchemaAccepts(leaf, Obj([]));
    forall fuel: nat ensures !Accepts(schema, leaf, schema, Obj([]), fuel) {
      EmptyObjectLacksTheKey(schema, leaf, fuel);
      if Accepts(schema, leaf, schema, Obj([]), fuel) {
        OnlyBranchDecides(schema, leaf, OnlyRequires("a"), Obj([]), fuel);
      }
    }
  }

  lemma EmptySchemaAccepts(leaf: Leaf, instance: Json)
    ensures Valid(Obj([]), leaf, instance)
  {
    assert Accepts(Obj([]), leaf, Obj([]), instance, 0);
  }

  lemma OnlyBranchDecides(document: Json, leaf: Leaf, branch: Json, instance: Json, fuel: nat)
    requires Accepts(document, leaf, Obj([Field("anyOf", Arr([branch]))]), instance, fuel)
    ensures Accepts(document, leaf, branch, instance, fuel)
  {
    var f := Field("anyOf", Arr([branch]));
    assert f in [f];
    assert Keyword(document, leaf, PropertiesOf([f]), PrefixLength([f]), f, instance, fuel);
  }

  lemma NormalizeOnlyRequires()
    ensures Normalize(OnlyRequires("a")) == OnlyRequires("a") && RequiredOnly(OnlyRequires("a"))
  {
    var required := Field("required", Arr([Str("a")]));
    assert NormalizeEntries([required]) == [required];
    assert Get([required], "required") == Some(required.value);
  }

  /** An `anyOf` of one branch that becomes required-only leaves nothing of the node. */
  lemma OnlyBranchIsDropped(branch: Json)
    requires RequiredOnly(Normalize(branch))
    ensures Normalize(Obj([Field("anyOf", Arr([branch]))])) == Obj([])
  {
    EntryIsDropped(branch);
    NodeIsDropped(Field("anyOf", Arr([branch])));
  }

  lemma EntryIsDropped(branch: Json)
    requires RequiredOnly(Normalize(branch))
    ensures NormalizeEntry(Field("anyOf", Arr([branch]))) == []
  {
    assert NormalizeAll([branch]) == [Normalize(branch)];
    SingleIsDropped(Normalize(branch));
    ListIsDropped([branch]);
  }

  lemma SingleIsDropped(v: Json)
    requires RequiredOnly(v)
    ensures DropRequiredOnly([v]) == []
  {
    assert [v][1..] == [];
  }

  lemma ListIsDropped(items: seq<Json>)
    requires DropRequiredOnly(NormalizeAll(items)) == []
    ensures NormalizeEntry(Field("anyOf", Arr(items))) == []
  {
  }

  lemma NodeIsDropped(f: Field)
    requires NormalizeEntry(f) == [] && f.key != "type" && f.key != "properties"
    ensures Normalize(Obj([f])) == Obj([])
  {
    assert NormalizeEntries([f]) == [];
    assert !IsObjectSchema([f]);
  }

  lemma EmptyObjectLacksTheKey(document: Json, leaf: Leaf, fuel: nat)
    ensures !Accepts(document, leaf, OnlyRequires("a"), Obj([]), fuel)
  {
    var required := Field("required", Arr([Str("a")]));
    assert Str("a") in required.value.items && required in OnlyRequires("a").fields;
    assert !Keyword(document, leaf, PropertiesOf([required]), PrefixLength([required]), required, Obj([]), fuel);
  }

  function CascadingBranch(): Json {
    Obj([Field("required", Arr([Str("a")])), Field("anyOf", Arr([OnlyRequires("a")]))])
  }

  function Cascade(): Json {
    Obj([DECLARES_A, Field("anyOf", Arr([CascadingBranch()]))])
  }

  lemma NormalizeCascade()
    ensures Normalize(OnlyRequires("a")) == OnlyRequires("a")
    ensures Normalize(CascadingBranch()) == OnlyRequires("a")
  {
    var required, anyOf := Field("required", Arr([Str("a")])), Field("anyOf", Arr([OnlyRequires("a")]));
    assert NormalizeEntries([required]) == [required];
    assert Get([required], "required") == Some(required.value) && RequiredOnly(OnlyRequires("a"));
    assert NormalizeAll([OnlyRequires("a")]) == [OnlyRequires("a")];
    assert DropRequiredOnly([OnlyRequires("a")]) == [];
    assert NormalizeEntry(anyOf) == [] && NormalizeEntries([anyOf]) == [];
    assert CascadingBranch().fields[1..] == [anyOf];
    assert NormalizeEntries(CascadingBranch().fields) == [required];
  }

  lemma AnyOfIsCovered(
    document: Json, leaf: Leaf, present: set<string>, fields: seq<Field>, branch: Json, keys: set<string>)
    requires keys == KeptKeys(fields) + present
    requires RequiresOnlyWithin(Normalize(branch), keys) && Covered(document, leaf, keys, branch)
    ensures CoveredEntry(document, leaf, present, fields, Field("anyOf", Arr([branch])))
  {
    assert branch in [branch];
    assert SafelyEmptied([branch], keys);
  }

  lemma RequiredIsCovered(document: Json, leaf: Leaf, present: set<string>, fields: seq<Field>)
    requires KeptKeys(fields) == {}
    ensures CoveredEntry(document, leaf, present, fields, Field("required", Arr([Str("a")])))
  {
  }

  lemma DeclarationIsCovered(document: Json, leaf: Leaf, fields: seq<Field>)
    ensures CoveredEntry(document, leaf, {}, fields, DECLARES_A)
  {
    assert forall e | e in DECLARES_A.value.fields :: e == Field("a", Bool(true));
  }

  /** A requirement of "a" next to an `anyOf` of one branch, where "a" is known to be present. */
  lemma RequiringNodeIsCovered(document: Json, leaf: Leaf, branch: Json)
    requires RequiresOnlyWithin(Normalize(branch), {"a"}) && Covered(document, leaf, {"a"}, branch)
    ensures Covered(document, leaf, {"a"}, Obj([Field("required", Arr([Str("a")])), Field("anyOf", Arr([branch]))]))
  {
    var fields := [Field("required", Arr([Str("a")])), Field("anyOf", Arr([branch]))];
    assert KeptKeys(fields) == {} && {} + {"a"} == {"a"};
    RequiredIsCovered(document, leaf, {"a"}, fields);
    AnyOfIsCovered(document, leaf, {"a"}, fields, branch, {"a"});
    assert forall f | f in fields :: f == fields[0] || f == fields[1];
  }

  /** A declaration of "a" next to an `anyOf` of one branch. */
  lemma DeclaringNodeIsCovered(document: Json, leaf: Leaf, branch: Json)
    requires RequiresOnlyWithin(Normalize(branch), {"a"}) && Covered(document, leaf, {"a"}, branch)
    ensures Covered(document, leaf, {}, Obj([DECLARES_A, Field("anyOf", Arr([branch]))]))
  {
    var fields := [DECLARES_A, Field("anyOf", Arr([branch]))];
    assert KeysOf(DECLARES_A.value.fields) == {"a"} && KeptKeys(fields) == {"a"} && {"a"} + {} == {"a"};
    DeclarationIsCovered(document, leaf, fields);
    AnyOfIsCovered(document, leaf, {}, fields, branch, {"a"});
    assert forall f | f in fields :: f == fields[0] || f == fields[1];
  }

  lemma OnlyRequiresIsCovered(document: Json, leaf: Leaf)
    ensures Covered(document, leaf, {"a"}, OnlyRequires("a")) && RequiresOnlyWithin(OnlyRequires("a"), {"a"})
  {
    var fields := OnlyRequires("a").fields;
    assert KeptKeys(fields) == {};
    RequiredIsCovered(document, leaf, {"a"}, fields);
  }

  /**
   A branch that becomes required-only by losing an `anyOf` of its own is inside the theorem,
   next to a declaration of its key.
   */
  lemma CascadeIsCovered(document: Json, leaf: Leaf)
    ensures Normalize(CascadingBranch()) == OnlyRequires("a")
    ensures Covered(document, leaf, {}, Cascade())
  {
    NormalizeCascade();
    OnlyRequiresIsCovered(document, leaf);
    RequiringNodeIsCovered(document, leaf, OnlyRequires("a"));
    DeclaringNodeIsCovered(document, leaf, CascadingBranch());
  }

  // ----- properties named `__proto__`

  function Declared(keys: seq<string>): seq<Field> {
    seq(|keys|, i requires 0 <= i < |keys| => Field(keys[i], Bool(true)))
  }

  function Strings(keys: seq<string>): seq<Json> {
    seq(|keys|, i requires 0 <= i < |keys| => Str(keys[i]))
  }

  /** A node that declares `keys`, and `__proto__` with schema `p` if there is one; `additional` may be missing. */
  function Node(p: Option<Json>, keys: seq<string>, required: seq<string>, additional: Option<Json>): seq<Field> {
    [Field("properties", Obj((if p.Some? then [Field(PROTO, p.value)] else []) + Declared(keys))),
     Field("required", Arr(Strings(required)))]
    + (if additional.Some? then [Field("additionalProperties", additional.value)] else [])
  }

  /** What the normalizer makes of it. */
  function NormalNode(keys: seq<string>, required: seq<string>, additional: Option<Json>): seq<Field> {
    Node(None, keys, if keys == [] then required else keys, Closed(additional))
  }

  lemma {:induction false} NormalizeDeclared(keys: seq<string>)
    requires PROTO !in keys
    ensures NormalizeMap(Declared(keys)) == Declared(keys)
  {
    if keys != [] {
      assert Declared(keys)[1..] == Declared(keys[1..]);
      NormalizeDeclared(keys[1..]);
      assert Declared(keys) == [Field(keys[0], Bool(true))] + Declared(keys[1..]);
    }
  }

  /** The entries of the node after `properties`. */
  function Tail(required: seq<string>, additional: Option<Json>): seq<Field> {
    [Field("required", Arr(Strings(required)))]
    + (if additional.Some? then [Field("additionalProperties", additional.value)] else [])
  }

  lemma NormalizeTail(required: seq<string>, additional: Option<Json>)
    ensures NormalizeEntries(Tail(required, additional)) == Tail(required, additional)
  {
    var rest := if additional.Some? then [Field("additionalProperties", additional.value)] else [];
    assert Tail(required, additional)[1..] == rest;
    assert NormalizeEntries(rest) == rest;
  }

  lemma NormalizeEntriesOfNode(p: Json, keys: seq<string>, required: seq<string>, additional: Option<Json>)
    requires PROTO !in keys
    ensures NormalizeEntries(Node(Some(p), keys, required, additional)) == Node(None, keys, required, additional)
  {
    var entries := [Field(PROTO, p)] + Declared(keys);
    NormalizeDeclared(keys);
    NormalizeTail(required, additional);
    assert entries[1..] == Declared(keys) && NormalizeMap(entries) == Declared(keys);
    var fields := Node(Some(p), keys, required, additional);
    assert fields[1..] == Tail(required, additional);
    assert NormalizeEntry(fields[0]) == [Field("properties", Obj(Declared(keys)))];
    assert [] + Declared(keys) == Declared(keys);
    assert Node(None, keys, required, additional) ==
        [Field("properties", Obj(Declared(keys)))] + Tail(required, additional);
  }

  lemma KeyStringsOfDeclared(keys: seq<string>)
    ensures KeyStrings(Declared(keys)) == Strings(keys)
  {
  }

  lemma NodeHas(p: Option<Json>, keys: seq<string>, required: seq<string>, additional: Option<Json>)
    ensures var node := Node(p, keys, required, additional);
            && Get(node, "properties") == Some(Obj((if p.Some? then [Field(PROTO, p.value)] else []) + Declared(keys)))
            && (Has(node, "additionalProperties") <==> additional.Some?) && PrefixLength(node) == 0
  {
    var node := Node(p, keys, required, additional);
    assert node[0] in node;
    if additional.Some? {
      assert node[2] in node;
    }
    assert forall f | f in node :: f == node[0] || f == node[1] || (additional.Some? && f == node[2]);
  }

  lemma PutIntoNode(keys: seq<string>, required: seq<string>, additional: Json)
    ensures Put(Node(None, keys, required, None), "additionalProperties", additional) ==
            Node(None, keys, required, Some(additional))
    ensures Put(Node(None, keys, required, Some(additional)), "required", Arr(Strings(keys))) ==
            Node(None, keys, keys, Some(additional))
  {
    NodeHas(None, keys, required, None);
    PutNew(Node(None, keys, required, None), "additionalProperties", additional);
    var node := Node(None, keys, required, Some(additional));
    assert node[1..] == [node[1], node[2]];
    assert Put(node[1..], "required", Arr(Strings(keys))) == [Field("required", Arr(Strings(keys)))] + node[1..][1..];
  }

  lemma NormalizeNode(p: Json, keys: seq<string>, required: seq<string>, additional: Option<Json>)
    requires PROTO !in keys
    ensures Normalize(Obj(Node(Some(p), keys, required, additional))) == Obj(NormalNode(keys, required, additional))
  {
    NormalizeEntriesOfNode(p, keys, required, additional);
    NodeHas(Some(p), keys, required, additional);
    NodeHas(None, keys, required, additional);
    var closing := if additional.Some? then additional.value else Bool(false);
    CompleteNode(Node(Some(p), keys, required, additional), keys, required, additional, closing);
  }

  lemma CompleteNode(source: seq<Field>, keys: seq<string>, required: seq<string>,
      additional: Option<Json>, closing: Json)
    requires Has(source, "properties") && closing == if additional.Some? then additional.value else Bool(false)
    ensures Complete(source, Node(None, keys, required, additional)) == NormalNode(keys, required, additional)
  {
    NodeHas(None, keys, required, additional);
    NodeHas(None, keys, required, Some(closing));
    PutIntoNode(keys, required, closing);
    KeyStringsOfDeclared(keys);
    assert [] + Declared(keys) == Declared(keys);
  }

  /** What such a node, declaring `keys` and perhaps `__proto__`, asks of an object. */
  ghost predicate AcceptsFields(
    document: Json, leaf: Leaf, p: Option<Json>, keys: seq<string>, required: seq<string>, additional: Option<Json>,
    fields: seq<Field>, fuel: nat)
  {
    && (forall k | k in required :: Has(fields, k))
    && (p.Some? && Has(fields, PROTO) ==> Accepts(document, leaf, p.value, Get(fields, PROTO).value, fuel))
    && (additional.Some? ==> forall e | e in fields && e.key !in keys && (p.Some? ==> e.key != PROTO) ::
         Accepts(document, leaf, additional.value, e.value, fuel))
  }

  lemma HasDeclared(keys: seq<string>, k: string)
    ensures Has(Declared(keys), k) <==> k in keys
  {
    if k in keys {
      var i :| 0 <= i < |keys| && keys[i] == k;
      assert Declared(keys)[i].key == k;
    }
  }

  /** Declared keys accept everything, so the keyword is about `__proto__` alone. */
  lemma PropertiesKeyword(
    document: Json, leaf: Leaf, p: Option<Json>, keys: seq<string>, declared: seq<Field>, fields: seq<Field>, fuel: nat)
    ensures var entries := (if p.Some? then [Field(PROTO, p.value)] else []) + Declared(keys);
            Keyword(document, leaf, declared, 0, Field("properties", Obj(entries)), Obj(fields), fuel)
            <==> (p.Some? && Has(fields, PROTO) ==> Accepts(document, leaf, p.value, Get(fields, PROTO).value, fuel))
  {
    var entries := (if p.Some? then [Field(PROTO, p.value)] else []) + Declared(keys);
    assert forall e | e in Declared(keys) :: e.value == Bool(true);
    assert p.Some? ==> entries[0] == Field(PROTO, p.value);
    assert forall e | e in entries :: e in Declared(keys) || (p.Some? && e == Field(PROTO, p.value));
  }

  lemma RequiredKeyword(document: Json, leaf: Leaf, required: seq<string>,
      declared: seq<Field>, fields: seq<Field>, fuel: nat)
    ensures Keyword(document, leaf, declared, 0, Field("required", Arr(Strings(required))), Obj(fields), fuel)
            <==> forall k | k in required :: Has(fields, k)
  {
    forall k | k in required ensures Str(k) in Strings(required) {
      var i :| 0 <= i < |required| && required[i] == k;
      assert Strings(required)[i] == Str(k);
    }
  }

  lemma AdditionalKeyword(
    document: Json, leaf: Leaf, p: Option<Json>, keys: seq<string>, additional: Json, fields: seq<Field>, fuel: nat)
    ensures var entries := (if p.Some? then [Field(PROTO, p.value)] else []) + Declared(keys);
            Keyword(document, leaf, entries, 0, Field("additionalProperties", additional), Obj(fields), fuel)
            <==> forall e | e in fields && e.key !in keys && (p.Some? ==> e.key != PROTO) ::
                   Accepts(document, leaf, additional, e.value, fuel)
  {
    var entries := (if p.Some? then [Field(PROTO, p.value)] else []) + Declared(keys);
    forall k ensures Has(entries, k) <==> k in keys || (p.Some? && k == PROTO) {
      HasDeclared(keys, k);
      assert p.Some? ==> entries[0] == Field(PROTO, p.value);
      assert forall e | e in Declared(keys) :: e in entries;
    }
  }

  ghost predicate AllHold(
    document: Json, leaf: Leaf, declared: seq<Field>, keywords: seq<Field>, instance: Json, fuel: nat)
  {
    keywords == []
    || (Keyword(document, leaf, declared, 0, keywords[0], instance, fuel)
        && AllHold(document, leaf, declared, keywords[1..], instance, fuel))
  }

  lemma {:induction false} AllHoldIff(
    document: Json, leaf: Leaf, declared: seq<Field>, keywords: seq<Field>, instance: Json, fuel: nat)
    ensures AllHold(document, leaf, declared, keywords, instance, fuel)
            <==> forall f | f in keywords :: Keyword(document, leaf, declared, 0, f, instance, fuel)
  {
    if keywords != [] {
      AllHoldIff(document, leaf, declared, keywords[1..], instance, fuel);
      FirstAndRest(keywords, f => Keyword(document, leaf, declared, 0, f, instance, fuel));
    }
  }

  lemma FirstAndRest(keywords: seq<Field>, holds: Field -> bool)
    requires keywords != []
    ensures (forall f | f in keywords :: holds(f)) <==> holds(keywords[0]) && forall f | f in keywords[1..] :: holds(f)
  {
    assert forall f :: f in keywords <==> f == keywords[0] || f in keywords[1..];
  }

  lemma AllHoldFirst(
    document: Json, leaf: Leaf, declared: seq<Field>, first: Field, rest: seq<Field>, instance: Json, fuel: nat)
    ensures AllHold(document, leaf, declared, [first] + rest, instance, fuel)
            <==> (&& Keyword(document, leaf, declared, 0, first, instance, fuel)
                  && AllHold(document, leaf, declared, rest, instance, fuel))
  {
    assert ([first] + rest)[1..] == rest;
  }

  lemma NodeHolds(
    document: Json, leaf: Leaf, p: Option<Json>, keys: seq<string>, required: seq<string>, additional: Option<Json>,
    entries: seq<Field>, instance: Json, fuel: nat)
    requires entries == (if p.Some? then [Field(PROTO, p.value)] else []) + Declared(keys)
    ensures AllHold(document, leaf, entries, Node(p, keys, required, additional), instance, fuel)
            <==> && Keyword(document, leaf, entries, 0, Field("properties", Obj(entries)), instance, fuel)
                 && Keyword(document, leaf, entries, 0, Field("required", Arr(Strings(required))), instance, fuel)
                 && (additional.Some? ==>
                      Keyword(document, leaf, entries, 0,
                          Field("additionalProperties", additional.value), instance, fuel))
  {
    var properties, list := Field("properties", Obj(entries)), Field("required", Arr(Strings(required)));
    var rest := if additional.Some? then [Field("additionalProperties", additional.value)] else [];
    AllHoldFirst(document, leaf, entries, properties, Tail(required, additional), instance, fuel);
    AllHoldFirst(document, leaf, entries, list, rest, instance, fuel);
    if additional.Some? {
      AllHoldFirst(document, leaf, entries, Field("additionalProperties", additional.value), [], instance, fuel);
      assert [Field("additionalProperties", additional.value)] + [] == rest;
    }
    assert Node(p, keys, required, additional) == [properties] + Tail(required, additional);
  }

  lemma NodeAcceptsAll(
    document: Json, leaf: Leaf, p: Option<Json>, keys: seq<string>, required: seq<string>, additional: Option<Json>,
    entries: seq<Field>, instance: Json, fuel: nat)
    requires entries == (if p.Some? then [Field(PROTO, p.value)] else []) + Declared(keys)
    ensures Accepts(document, leaf, Obj(Node(p, keys, required, additional)), instance, fuel)
            <==> AllHold(document, leaf, entries, Node(p, keys, required, additional), instance, fuel)
  {
    NodeHas(p, keys, required, additional);
    AcceptsIsAllHold(document, leaf, Node(p, keys, required, additional), entries, instance, fuel);
  }

  lemma AcceptsIsAllHold(
    document: Json, leaf: Leaf, node: seq<Field>, entries: seq<Field>, instance: Json, fuel: nat)
    requires PropertiesOf(node) == entries && PrefixLength(node) == 0
    ensures Accepts(document, leaf, Obj(node), instance, fuel)
            <==> AllHold(document, leaf, entries, node, instance, fuel)
  {
    AllHoldIff(document, leaf, entries, node, instance, fuel);
  }

  lemma NodeAccepts(
    document: Json, leaf: Leaf, p: Option<Json>, keys: seq<string>, required: seq<string>, additional: Option<Json>,
    fields: seq<Field>, fuel: nat)
    ensures Accepts(document, leaf, Obj(Node(p, keys, required, additional)), Obj(fields), fuel)
            <==> AcceptsFields(document, leaf, p, keys, required, additional, fields, fuel)
  {
    var entries := (if p.Some? then [Field(PROTO, p.value)] else []) + Declared(keys);
    NodeAcceptsAll(document, leaf, p, keys, required, additional, entries, Obj(fields), fuel);
    NodeHolds(document, leaf, p, keys, required, additional, entries, Obj(fields), fuel);
    PropertiesKeyword(document, leaf, p, keys, entries, fields, fuel);
    RequiredKeyword(document, leaf, required, entries, fields, fuel);
    if additional.Some? {
      AdditionalKeyword(document, leaf, p, keys, additional.value, fields, fuel);
    }
  }

  // ----- the exact condition

  /** An object whose fields, under the given keys, all have one value. */
  function Uniform(keys: seq<string>, v: Json): seq<Field> {
    seq(|keys|, i requires 0 <= i < |keys| => Field(keys[i], v))
  }

  lemma UniformHas(keys: seq<string>, v: Json, k: string)
    ensures Has(Uniform(keys, v), k) <==> k in keys
    ensures k in keys ==> Get(Uniform(keys, v), k) == Some(v)
  {
    if k in keys {
      var i :| 0 <= i < |keys| && keys[i] == k;
      assert Uniform(keys, v)[i].key == k;
    }
  }

  /** Every object the normalized node accepts is accepted by the node. */
  ghost predicate NodeRefines(
    before: Json, after: Json, leaf: Leaf, p: Json, keys: seq<string>,
    required: seq<string>, additional: Option<Json>, fuel: nat)
  {
    var node := Obj(Node(Some(p), keys, required, additional));
    forall fields | Accepts(after, leaf, Normalize(node), Obj(fields), fuel) ::
      Accepts(before, leaf, node, Obj(fields), fuel)
  }

  /**
   What the node says about undeclared keys implies the schema of `__proto__`; when other keys
   are declared, the required keys are among them.
   */
  ghost predicate ProtoCondition(
    before: Json, after: Json, leaf: Leaf, p: Json, keys: seq<string>,
    required: seq<string>, additional: Option<Json>, fuel: nat)
  {
    && (additional.Some? ==>
          forall v :: Accepts(after, leaf, additional.value, v, fuel) ==> Accepts(before, leaf, p, v, fuel))
    && (keys != [] ==> forall k | k in required :: k in keys)
  }

  function Closed(additional: Option<Json>): Option<Json> {
    Some(if additional.Some? then additional.value else Bool(false))
  }

  lemma ConditionSuffices(
    before: Json, after: Json, leaf: Leaf, p: Json, keys: seq<string>, required: seq<string>, additional: Option<Json>,
    fields: seq<Field>, fuel: nat)
    requires PROTO !in keys && ProtoCondition(before, after, leaf, p, keys, required, additional, fuel)
    requires additional.Some? ==>
               forall v | Accepts(after, leaf, additional.value, v, fuel) ::
                 Accepts(before, leaf, additional.value, v, fuel)
    requires AcceptsFields(after, leaf, None, keys, if keys == [] then required else keys,
                           Closed(additional), fields, fuel)
    ensures AcceptsFields(before, leaf, Some(p), keys, required, additional, fields, fuel)
  {
    if Has(fields, PROTO) {
      assert Field(PROTO, Get(fields, PROTO).value) in fields;
    }
  }

  lemma MissingRequirement(
    before: Json, after: Json, leaf: Leaf, p: Json, keys: seq<string>, required: seq<string>, additional: Option<Json>,
    k: string, fuel: nat)
    requires PROTO !in keys && keys != [] && k in required && k !in keys
    ensures AcceptsFields(after, leaf, None, keys, keys, Closed(additional), Uniform(keys, Null), fuel)
    ensures !AcceptsFields(before, leaf, Some(p), keys, required, additional, Uniform(keys, Null), fuel)
  {
    UniformHas(keys, Null, k);
    forall key | key in keys ensures Has(Uniform(keys, Null), key) {
      UniformHas(keys, Null, key);
    }
  }

  lemma UncheckedProto(
    before: Json, after: Json, leaf: Leaf, p: Json, keys: seq<string>, required: seq<string>, additional: Json,
    v: Json, fuel: nat)
    requires PROTO !in keys && Accepts(after, leaf, additional, v, fuel) && !Accepts(before, leaf, p, v, fuel)
    ensures var fields := Uniform([PROTO] + keys + required, v);
            && AcceptsFields(after, leaf, None, keys, if keys == [] then required else keys,
                             Some(additional), fields, fuel)
            && !AcceptsFields(before, leaf, Some(p), keys, required, Some(additional), fields, fuel)
  {
    var all := [PROTO] + keys + required;
    assert all[0] == PROTO;
    UniformHas(all, v, PROTO);
    forall key | key in keys || key in required ensures Has(Uniform(all, v), key) {
      UniformHas(all, v, key);
    }
    UniformIsAccepted(after, leaf, keys, if keys == [] then required else keys, additional, Uniform(all, v), v, fuel);
  }

  lemma UniformIsAccepted(
    document: Json, leaf: Leaf, keys: seq<string>, required: seq<string>,
    additional: Json, fields: seq<Field>, v: Json, fuel: nat)
    requires Accepts(document, leaf, additional, v, fuel)
    requires (forall e | e in fields :: e.value == v) && forall k | k in required :: Has(fields, k)
    ensures AcceptsFields(document, leaf, None, keys, required, Some(additional), fields, fuel)
  {
  }

  lemma ConditionIsNecessary(
    before: Json, after: Json, leaf: Leaf, p: Json, keys: seq<string>,
    required: seq<string>, additional: Option<Json>, fuel: nat)
    returns (fields: seq<Field>)
    requires PROTO !in keys && !ProtoCondition(before, after, leaf, p, keys, required, additional, fuel)
    ensures AcceptsFields(after, leaf, None, keys, if keys == [] then required else keys,
                          Closed(additional), fields, fuel)
    ensures !AcceptsFields(before, leaf, Some(p), keys, required, additional, fields, fuel)
  {
    if k :| keys != [] && k in required && k !in keys {
      MissingRequirement(before, after, leaf, p, keys, required, additional, k, fuel);
      fields := Uniform(keys, Null);
    } else {
      var v :| Accepts(after, leaf, additional.value, v, fuel) && !Accepts(before, leaf, p, v, fuel);
      UncheckedProto(before, after, leaf, p, keys, required, additional.value, v, fuel);
      fields := Uniform([PROTO] + keys + required, v);
    }
  }

  /** The refinement of the node, said of what its keywords accept. */
  lemma NodeRefinesOnFields(
    before: Json, after: Json, leaf: Leaf, p: Json, keys: seq<string>,
    required: seq<string>, additional: Option<Json>, fuel: nat)
    requires PROTO !in keys
    ensures NodeRefines(before, after, leaf, p, keys, required, additional, fuel)
            <==> forall fields
                   | AcceptsFields(after, leaf, None, keys, if keys == [] then required else keys,
                                   Closed(additional), fields, fuel) ::
                   AcceptsFields(before, leaf, Some(p), keys, required, additional, fields, fuel)
  {
    NormalizeNode(p, keys, required, additional);
    forall fields
      ensures Accepts(after, leaf, Obj(NormalNode(keys, required, additional)), Obj(fields), fuel)
              <==> AcceptsFields(after, leaf, None, keys, if keys == [] then required else keys,
                                 Closed(additional), fields, fuel)
      ensures Accepts(before, leaf, Obj(Node(Some(p), keys, required, additional)), Obj(fields), fuel)
              <==> AcceptsFields(before, leaf, Some(p), keys, required, additional, fields, fuel)
    {
      NodeAccepts(after, leaf, None, keys, if keys == [] then required else keys, Closed(additional), fields, fuel);
      NodeAccepts(before, leaf, Some(p), keys, required, additional, fields, fuel);
    }
  }

  /**
   For every node that declares `__proto__`, whatever the documents its references lead to: all
   objects that the normalized node accepts are accepted by the node if and only if undeclared
   keys are held to no less than `__proto__` was, and no required key is lost. Without
   `additionalProperties` the first is always so, because the normalizer forbids undeclared keys.
   */
  lemma DroppingProtoIsSafeIff(
    before: Json, after: Json, leaf: Leaf, p: Json, keys: seq<string>,
    required: seq<string>, additional: Option<Json>, fuel: nat)
    requires PROTO !in keys
    requires additional.Some? ==>
               forall v | Accepts(after, leaf, additional.value, v, fuel) ::
                 Accepts(before, leaf, additional.value, v, fuel)
    ensures NodeRefines(before, after, leaf, p, keys, required, additional, fuel)
            <==> ProtoCondition(before, after, leaf, p, keys, required, additional, fuel)
  {
    NodeRefinesOnFields(before, after, leaf, p, keys, required, additional, fuel);
    if ProtoCondition(before, after, leaf, p, keys, required, additional, fuel) {
      forall fields
        | AcceptsFields(after, leaf, None, keys, if keys == [] then required else keys,
                        Closed(additional), fields, fuel)
        ensures AcceptsFields(before, leaf, Some(p), keys, required, additional, fields, fuel)
      {
        ConditionSuffices(before, after, leaf, p, keys, required, additional, fields, fuel);
      }
    } else {
      var fields := ConditionIsNecessary(before, after, leaf, p, keys, required, additional, fuel);
    }
  }
}
