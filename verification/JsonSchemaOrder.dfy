/**
 The order in which keys are written, in the instance or anywhere in the schema document, never
 changes what a well-formed schema means, nor therefore what the validator answers.
 */
module JsonSchemaOrder {
  import opened Wrappers
  import opened Json
  import Text
  import opened JsonSchema
  import opened JsonSchemaMeaning

  /** Two optional documents are both absent or print alike. */
  predicate SameOption(a: Option<Json>, b: Option<Json>) {
    if a.Some? then b.Some? && SameText(a.value, b.value) else b.None?
  }

  predicate SameParts(xs: seq<Json>, ys: seq<Json>) {
    |xs| == |ys| && forall i :: 0 <= i < |xs| ==> SameText(xs[i], ys[i])
  }

  predicate SameFields(f: Fields, g: Fields) { SameText(Obj(f), Obj(g)) }

  lemma {:induction false} WalkSame(a: Json, b: Json, components: seq<string>)
    requires SameText(a, b)
    ensures SameOption(Walk(a, components), Walk(b, components))
    decreases |components|
  {
    hide DecodeKey;
    if components != [] && a.Obj? {
      var key := DecodeKey(components[0]);
      LookupSame(a.fields, b.fields, key);
      if Lookup(a.fields, key).Some? {
        WalkSame(Lookup(a.fields, key).value, Lookup(b.fields, key).value, components[1..]);
      }
    }
  }

  lemma ResolveSame(root: Json, root': Json, reference: string)
    requires SameText(root, root')
    ensures SameOption(Resolve(root, reference), Resolve(root', reference))
  {
    hide Walk, SameText;
    if "#/" <= reference {
      WalkSame(root, root', Text.Split(reference[2..], '/'));
    }
  }

  lemma TargetSame(f: Fields, g: Fields, root: Json, root': Json)
    requires SameFields(f, g) && SameText(root, root')
    ensures SameOption(Target(f, root), Target(g, root'))
  {
    hide Resolve, Lookup;
    LookupSame(f, g, "$ref");
    if Lookup(f, "$ref").Some? && Lookup(f, "$ref").value.Str? {
      ResolveSame(root, root', Lookup(f, "$ref").value.s);
    }
  }

  lemma TypeSame(v: Json, w: Json, f: Fields, g: Fields)
    requires SameText(v, w) && SameFields(f, g)
    ensures TypeHolds(v, f) == TypeHolds(w, g)
  {
    hide Lookup;
    LookupSame(f, g, "type");
    assert forall kind :: HasType(v, kind) == HasType(w, kind);
    var expected, expected' := GetOr(f, "type", Null), GetOr(g, "type", Null);
    if expected.Arr? {
      assert forall i :: 0 <= i < |expected.items| ==>
          (expected.items[i].Str? <==> expected'.items[i].Str?) &&
          (expected.items[i].Str? ==> expected.items[i].s == expected'.items[i].s);
    }
  }

  lemma WithinSame(n: nat, f: Fields, g: Fields, low: string, least: int, high: string)
    requires SameFields(f, g)
    requires NumberAt(f, low) && NumberAt(f, high) && NumberAt(g, low) && NumberAt(g, high)
    ensures Within(n, f, low, least, high) == Within(n, g, low, least, high)
  {
    hide Lookup;
    LookupSame(f, g, low);
    LookupSame(f, g, high);
  }

  lemma StringSame(s: string, f: Fields, g: Fields, search: Search)
    requires SameFields(f, g)
    requires NumberAt(f, "minLength") && NumberAt(f, "maxLength") && PatternAt(f, search)
    requires NumberAt(g, "minLength") && NumberAt(g, "maxLength") && PatternAt(g, search)
    ensures StringHolds(s, f, search) == StringHolds(s, g, search)
  {
    hide Lookup, Within;
    WithinSame(|s|, f, g, "minLength", 0, "maxLength");
    LookupSame(f, g, "pattern");
  }

  lemma HostEqualBoth(v: Json, w: Json, c: Json, c': Json)
    requires SameText(v, w) && SameText(c, c') && Proper(v) && Proper(w) && Proper(c')
    ensures HostEqual(v, c) == HostEqual(w, c')
  {
    SameTextSymmetric(v, w);
    SameTextSymmetric(c, c');
    if HostEqual(v, c) { HostEqualSame(v, w, c, c'); }
    if HostEqual(w, c') { HostEqualSame(w, v, c', c); }
  }

  lemma ProperLookup(f: Fields, key: string)
    requires Proper(Obj(f))
    ensures Lookup(f, key).Some? ==> Proper(Lookup(f, key).value)
  {
    if Lookup(f, key).Some? {
      var i :| 0 <= i < |f| && f[i] == (key, Lookup(f, key).value);
    }
  }

  lemma SameArrays(x: Json, y: Json)
    requires SameText(x, y)
    ensures x.Arr? <==> y.Arr?
    ensures x.Arr? ==> SameParts(x.items, y.items)
  {
  }

  lemma EnumSame(v: Json, w: Json, xs: seq<Json>, ys: seq<Json>)
    requires SameText(v, w) && SameParts(xs, ys) && Proper(v) && Proper(w)
    requires forall i :: 0 <= i < |ys| ==> Proper(ys[i])
    ensures (exists i :: 0 <= i < |xs| && HostEqual(v, xs[i])) == (exists i :: 0 <= i < |ys| && HostEqual(w, ys[i]))
  {
    hide HostEqual, SameText, Proper;
    forall i | 0 <= i < |xs| ensures HostEqual(v, xs[i]) == HostEqual(w, ys[i]) {
      HostEqualBoth(v, w, xs[i], ys[i]);
    }
  }

  /** A keyword of two documents that print alike. */
  lemma KeywordValueSame(f: Fields, g: Fields, key: string)
    requires SameFields(f, g) && Proper(Obj(g))
    ensures SameOption(Lookup(f, key), Lookup(g, key))
    ensures Lookup(g, key).Some? ==> Proper(Lookup(g, key).value)
    ensures Lookup(g, key).Some? && Lookup(g, key).value.Arr? ==>
              && Lookup(f, key).value.Arr?
              && SameParts(Lookup(f, key).value.items, Lookup(g, key).value.items)
              && forall i :: 0 <= i < |Lookup(g, key).value.items| ==> Proper(Lookup(g, key).value.items[i])
  {
    hide Lookup;
    LookupSame(f, g, key);
    ProperLookup(g, key);
  }

  lemma ConstantsSame(v: Json, w: Json, f: Fields, g: Fields)
    requires SameText(v, w) && SameFields(f, g) && Proper(v) && Proper(w) && Proper(Obj(g))
    requires ListAt(f, "enum") && ListAt(g, "enum")
    ensures ConstantsHold(v, f) == ConstantsHold(w, g)
  {
    hide Lookup, HostEqual, SameText, Proper, SameFields, SameParts;
    KeywordValueSame(f, g, "const");
    KeywordValueSame(f, g, "enum");
    if Lookup(f, "const").Some? {
      HostEqualBoth(v, w, Lookup(f, "const").value, Lookup(g, "const").value);
    }
    if Lookup(f, "enum").Some? {
      EnumSame(v, w, Lookup(f, "enum").value.items, Lookup(g, "enum").value.items);
    }
  }

  lemma UniqueSame(xs: seq<Json>, ys: seq<Json>)
    requires SameParts(xs, ys) && forall i :: 0 <= i < |xs| ==> Proper(xs[i]) && Proper(ys[i])
    ensures Unique(xs) == Unique(ys)
  {
    forall i, j | 0 <= i < j < |xs| ensures SameText(xs[i], xs[j]) == SameText(ys[i], ys[j]) {
      SameTextSymmetric(xs[i], ys[i]);
      SameTextSymmetric(xs[j], ys[j]);
      if SameText(xs[i], xs[j]) {
        SameTextTransitive(ys[i], xs[i], xs[j]);
        SameTextTransitive(ys[i], xs[j], ys[j]);
      }
      if SameText(ys[i], ys[j]) {
        SameTextTransitive(xs[i], ys[i], ys[j]);
        SameTextTransitive(xs[i], ys[j], xs[j]);
      }
    }
  }

  lemma RequiredSame(fields: Fields, fields': Fields, f: Fields, g: Fields)
    requires SameFields(fields, fields') && SameFields(f, g) && KeysAt(f) && KeysAt(g)
    ensures RequiredHold(fields, f) == RequiredHold(fields', g)
  {
    hide Lookup;
    LookupSame(f, g, "required");
    if Lookup(f, "required").Some? {
      var xs, ys := Lookup(f, "required").value.items, Lookup(g, "required").value.items;
      forall i | 0 <= i < |xs| ensures Lookup(fields, xs[i].s).Some? == Lookup(fields', ys[i].s).Some? {
        assert xs[i] == ys[i];
        LookupSame(fields, fields', xs[i].s);
      }
    }
  }

  lemma PartsSame(f: Fields, g: Fields, key: string)
    requires SameFields(f, g) && ListAt(f, key) && ListAt(g, key)
    ensures SameParts(Parts(f, key), Parts(g, key))
  {
    hide Lookup;
    LookupSame(f, g, key);
  }

  /** The two sides of a comparison: instance, schema, document and the facts about subschemas. */
  datatype Side = Side(value: Json, schema: Json, root: Json, holds: Facts)

  predicate SideAsks(a: Side, v: Json, t: Json) { Asks(a.value, a.schema, a.root, v, t) }

  /** The sides print alike, and so do their facts on whatever both may ask. */
  ghost predicate Alike(a: Side, b: Side) {
    && SameText(a.value, b.value) && SameText(a.schema, b.schema) && SameText(a.root, b.root)
    && Proper(a.value) && Proper(b.value) && Proper(b.schema)
    && a.schema.Obj? && b.schema.Obj?
    && forall v, w, s, t ::
         SideAsks(a, v, s) && SideAsks(b, w, t) && SameText(v, w) && SameText(s, t) ==>
           a.holds(v, s) == b.holds(w, t)
  }

  lemma AlternativesSame(a: Side, b: Side, xs: seq<Json>, ys: seq<Json>)
    requires Alike(a, b) && SameParts(xs, ys)
    requires forall i :: 0 <= i < |xs| ==> Applies(a.schema, xs[i], a.root) && Applies(b.schema, ys[i], b.root)
    ensures AllHold(a.value, xs, a.holds) == AllHold(b.value, ys, b.holds)
    ensures SomeHolds(a.value, xs, a.holds) == SomeHolds(b.value, ys, b.holds)
    ensures OneHolds(a.value, xs, a.holds) == OneHolds(b.value, ys, b.holds)
  {
    hide Applies, Descends, Proper;
    forall i | 0 <= i < |xs| ensures a.holds(a.value, xs[i]) == b.holds(b.value, ys[i]) {
      assert SideAsks(a, a.value, xs[i]) && SideAsks(b, b.value, ys[i]);
    }
  }

  lemma ApplicatorsSame(a: Side, b: Side, key: string)
    requires Alike(a, b) && key in {"allOf", "anyOf", "oneOf"}
    requires ListAt(a.schema.fields, key) && ListAt(b.schema.fields, key)
    ensures var xs, ys := Parts(a.schema.fields, key), Parts(b.schema.fields, key);
            && AllHold(a.value, xs, a.holds) == AllHold(b.value, ys, b.holds)
            && SomeHolds(a.value, xs, a.holds) == SomeHolds(b.value, ys, b.holds)
            && OneHolds(a.value, xs, a.holds) == OneHolds(b.value, ys, b.holds)
  {
    hide Lookup, Parts, Target, AllHold, SomeHolds, OneHolds, Proper, ListAt;
    PartsSame(a.schema.fields, b.schema.fields, key);
    AlternativesSame(a, b, Parts(a.schema.fields, key), Parts(b.schema.fields, key));
  }

  lemma KeywordSame(a: Side, b: Side, key: string)
    requires Alike(a, b) && key in {"if", "then", "else", "not"}
    ensures var x, y := Lookup(a.schema.fields, key), Lookup(b.schema.fields, key);
            && (x.Some? <==> y.Some?)
            && (x.Some? ==> a.holds(a.value, x.value) == b.holds(b.value, y.value))
  {
    hide Lookup, Parts, Target, Proper, Descends;
    LookupSame(a.schema.fields, b.schema.fields, key);
    var x, y := Lookup(a.schema.fields, key), Lookup(b.schema.fields, key);
    if x.Some? {
      assert SideAsks(a, a.value, x.value) && SideAsks(b, b.value, y.value);
    }
  }

  lemma ConditionsSame(a: Side, b: Side)
    requires Alike(a, b)
    ensures ConditionsHold(a.value, a.schema.fields, a.holds) == ConditionsHold(b.value, b.schema.fields, b.holds)
  {
    hide Lookup, Alike;
    KeywordSame(a, b, "if");
    KeywordSame(a, b, "then");
    KeywordSame(a, b, "else");
    KeywordSame(a, b, "not");
  }

  lemma ReferenceSame(a: Side, b: Side)
    requires Alike(a, b)
    ensures var x, y := Target(a.schema.fields, a.root), Target(b.schema.fields, b.root);
            && (x.Some? <==> y.Some?)
            && (x.Some? ==> a.holds(a.value, x.value) == b.holds(b.value, y.value))
  {
    hide Lookup, Parts, Resolve, Target, Proper, Descends;
    var x, y := Target(a.schema.fields, a.root), Target(b.schema.fields, b.root);
    TargetSame(a.schema.fields, b.schema.fields, a.root, b.root);
    if x.Some? {
      assert SideAsks(a, a.value, x.value) && SideAsks(b, b.value, y.value);
    }
  }

  lemma FactSame(a: Side, b: Side, v: Json, w: Json, s: Json, t: Json)
    requires Alike(a, b) && SideAsks(a, v, s) && SideAsks(b, w, t) && SameText(v, w) && SameText(s, t)
    ensures a.holds(v, s) == b.holds(w, t)
  {
    hide SideAsks, SameText, Proper;
  }

  /** Both sides declare a property alike, or neither does. */
  lemma DeclaredSame(a: Side, b: Side, key: string)
    requires SameText(a.schema, b.schema) && a.schema.Obj? && b.schema.Obj?
    requires GetOr(a.schema.fields, "properties", Obj([])).Obj? && GetOr(b.schema.fields, "properties", Obj([])).Obj?
    ensures var x := Lookup(GetOr(a.schema.fields, "properties", Obj([])).fields, key);
            var y := Lookup(GetOr(b.schema.fields, "properties", Obj([])).fields, key);
            match x
            case None => y == None
            case Some(s) => y.Some? && SameText(s, y.value) && Descends(a.schema, s) && Descends(b.schema, y.value)
  {
    hide Lookup, Applies, Descends, HostEqual;
    var f, g := a.schema.fields, b.schema.fields;
    LookupSame(f, g, "properties");
    LookupSame(GetOr(f, "properties", Obj([])).fields, GetOr(g, "properties", Obj([])).fields, key);
    DeclaredDescends(a.schema, key);
    DeclaredDescends(b.schema, key);
  }

  lemma PropertySame(a: Side, b: Side, i: nat, j: nat)
    requires Alike(a, b) && a.value.Obj? && i < |a.value.fields| && j < |b.value.fields|
    requires GetOr(a.schema.fields, "properties", Obj([])).Obj? && GetOr(b.schema.fields, "properties", Obj([])).Obj?
    requires a.value.fields[i].0 == b.value.fields[j].0 && SameText(a.value.fields[i].1, b.value.fields[j].1)
    ensures var (key, item) := a.value.fields[i];
            PropertyHolds(key, item, a.schema.fields, a.holds) ==
            PropertyHolds(key, b.value.fields[j].1, b.schema.fields, b.holds)
  {
    hide Lookup, Applies, Descends, Proper, HostEqual;
    var (key, item) := a.value.fields[i];
    DeclaredSame(a, b, key);
    AdditionalSame(a.schema.fields, b.schema.fields);
    var x := Lookup(GetOr(a.schema.fields, "properties", Obj([])).fields, key);
    var y := Lookup(GetOr(b.schema.fields, "properties", Obj([])).fields, key);
    if x.Some? { FactSame(a, b, item, b.value.fields[j].1, x.value, y.value); }
  }

  lemma AdditionalSame(f: Fields, g: Fields)
    requires SameText(Obj(f), Obj(g))
    ensures Lookup(f, "additionalProperties") == Some(Bool(false)) <==>
              Lookup(g, "additionalProperties") == Some(Bool(false))
  {
    hide Lookup;
    LookupSame(f, g, "additionalProperties");
  }

  lemma PropertiesSame(a: Side, b: Side)
    requires Alike(a, b) && a.value.Obj?
    requires GetOr(a.schema.fields, "properties", Obj([])).Obj? && GetOr(b.schema.fields, "properties", Obj([])).Obj?
    ensures (forall i :: 0 <= i < |a.value.fields| ==>
               PropertyHolds(a.value.fields[i].0, a.value.fields[i].1, a.schema.fields, a.holds))
            <==>
            (forall j :: 0 <= j < |b.value.fields| ==>
               PropertyHolds(b.value.fields[j].0, b.value.fields[j].1, b.schema.fields, b.holds))
  {
    hide PropertyHolds, Lookup;
    var f, f' := a.value.fields, b.value.fields;
    forall i | 0 <= i < |f|
      ensures exists j :: 0 <= j < |f'| && PropertyHolds(f[i].0, f[i].1, a.schema.fields, a.holds) ==
                                          PropertyHolds(f'[j].0, f'[j].1, b.schema.fields, b.holds)
    {
      var j := Counterpart(f, f', i);
      PropertySame(a, b, i, j);
    }
    SameTextSymmetric(a.value, b.value);
    forall j | 0 <= j < |f'|
      ensures exists i :: 0 <= i < |f| && PropertyHolds(f[i].0, f[i].1, a.schema.fields, a.holds) ==
                                          PropertyHolds(f'[j].0, f'[j].1, b.schema.fields, b.holds)
    {
      var i := Counterpart(f', f, j);
      SameTextSymmetric(f'[j].1, f[i].1);
      PropertySame(a, b, i, j);
    }
  }

  /** Where a key of one object stands in another that prints alike. */
  lemma Counterpart(f: Fields, g: Fields, i: nat) returns (j: nat)
    requires SameFields(f, g) && i < |f| && Proper(Obj(f)) && Proper(Obj(g))
    ensures j < |g| && f[i].0 == g[j].0 && SameText(f[i].1, g[j].1)
    ensures Proper(f[i].1) && Proper(g[j].1)
  {
    LookupSame(f, g, f[i].0);
    LookupAt(f, i);
    var found := Lookup(g, f[i].0).value;
    j :| 0 <= j < |g| && g[j] == (f[i].0, found);
  }

  lemma ItemsSame(a: Side, b: Side, key: string)
    requires Alike(a, b) && a.value.Arr? && key in {"items", "contains"}
    ensures var x, y := Lookup(a.schema.fields, key), Lookup(b.schema.fields, key);
            && (x.Some? <==> y.Some?)
            && |a.value.items| == |b.value.items|
            && (x.Some? ==> forall i :: 0 <= i < |a.value.items| ==>
                  a.holds(a.value.items[i], x.value) == b.holds(b.value.items[i], y.value))
  {
    hide Lookup, Applies, Descends, Proper;
    DescendsKeywords(a.schema);
    DescendsKeywords(b.schema);
    LookupSame(a.schema.fields, b.schema.fields, key);
    var x, y := Lookup(a.schema.fields, key), Lookup(b.schema.fields, key);
    if x.Some? {
      forall i | 0 <= i < |a.value.items|
        ensures a.holds(a.value.items[i], x.value) == b.holds(b.value.items[i], y.value) {
        assert SideAsks(a, a.value.items[i], x.value) && SideAsks(b, b.value.items[i], y.value);
      }
    }
  }

  lemma ArraySame(a: Side, b: Side)
    requires Alike(a, b) && a.value.Arr?
    requires NumberAt(a.schema.fields, "minItems") && NumberAt(a.schema.fields, "maxItems")
    requires NumberAt(b.schema.fields, "minItems") && NumberAt(b.schema.fields, "maxItems")
    requires NumberAt(a.schema.fields, "minContains") && NumberAt(a.schema.fields, "maxContains")
    requires NumberAt(b.schema.fields, "minContains") && NumberAt(b.schema.fields, "maxContains")
    ensures ArrayHolds(a.value.items, a.schema.fields, a.holds) == ArrayHolds(b.value.items, b.schema.fields, b.holds)
  {
    hide Lookup, SideAsks, SameText, Within, Unique, NumberAt;
    SameArrays(a.value, b.value);
    var f, g := a.schema.fields, b.schema.fields;
    var xs, ys := a.value.items, b.value.items;
    BoundsSame(a, b);
    ItemsSame(a, b, "items");
    ItemsSame(a, b, "contains");
    if Lookup(f, "contains").Some? {
      var t, t' := Lookup(f, "contains").value, Lookup(g, "contains").value;
      assert (set i | 0 <= i < |xs| && a.holds(xs[i], t)) == (set i | 0 <= i < |ys| && b.holds(ys[i], t'));
      WithinSame(|set i | 0 <= i < |xs| && a.holds(xs[i], t)|, f, g, "minContains", 1, "maxContains");
    }
  }

  lemma TruthySame(x: Json, y: Json)
    requires SameText(x, y)
    ensures Truthy(x) == Truthy(y)
  {
    if x.Obj? && x.fields != [] { assert Lookup(y.fields, x.fields[0].0).Some?; }
    if x.Obj? && y.fields != [] { assert Lookup(x.fields, y.fields[0].0).Some?; }
  }

  lemma BoundsSame(a: Side, b: Side)
    requires Alike(a, b) && a.value.Arr?
    requires NumberAt(a.schema.fields, "minItems") && NumberAt(a.schema.fields, "maxItems")
    requires NumberAt(b.schema.fields, "minItems") && NumberAt(b.schema.fields, "maxItems")
    ensures SameFields(a.schema.fields, b.schema.fields)
    ensures Within(|a.value.items|, a.schema.fields, "minItems", 0, "maxItems") ==
            Within(|b.value.items|, b.schema.fields, "minItems", 0, "maxItems")
    ensures (Truthy(GetOr(a.schema.fields, "uniqueItems", Null)) ==> Unique(a.value.items)) ==
            (Truthy(GetOr(b.schema.fields, "uniqueItems", Null)) ==> Unique(b.value.items))
  {
    hide Lookup, Within, Unique;
    var f, g := a.schema.fields, b.schema.fields;
    assert SameFields(f, g);
    WithinSame(|a.value.items|, f, g, "minItems", 0, "maxItems");
    LookupSame(f, g, "uniqueItems");
    TruthySame(GetOr(f, "uniqueItems", Null), GetOr(g, "uniqueItems", Null));
    UniqueSame(a.value.items, b.value.items);
  }

  lemma AlikeFields(a: Side, b: Side)
    requires Alike(a, b)
    ensures SameFields(a.schema.fields, b.schema.fields)
    ensures a.value.Obj? <==> b.value.Obj?
    ensures a.value.Arr? <==> b.value.Arr?
    ensures a.value.Str? ==> a.value == b.value
    ensures b.value.Str? ==> a.value == b.value
    ensures a.value.Obj? ==> SameFields(a.value.fields, b.value.fields)
  {
    hide Lookup, SideAsks;
  }

  /** One level of the meaning does not see the order of keys. */
  lemma StepSame(a: Side, b: Side, search: Search)
    requires Alike(a, b)
    requires WellFormedNode(a.schema, a.root, search) && WellFormedNode(b.schema, b.root, search)
    ensures StepHolds(a.value, a.schema, a.root, search, a.holds) ==
            StepHolds(b.value, b.schema, b.root, search, b.holds)
  {
    hide Lookup, TypeHolds, ConstantsHold, AllHold, SomeHolds, OneHolds, ConditionsHold, ArrayHolds, StringHolds,
      RequiredHold, PropertyHolds, Target, Parts, SideAsks, HostEqual, SameText, Proper, KindAt, KeysAt, PatternAt;
    var f, g := a.schema.fields, b.schema.fields;
    AlikeFields(a, b);
    ReferenceSame(a, b);
    TypeSame(a.value, b.value, f, g);
    if a.value.Obj? {
      RequiredSame(a.value.fields, b.value.fields, f, g);
      PropertiesSame(a, b);
    }
    if a.value.Arr? { ArraySame(a, b); }
    if a.value.Str? { StringSame(a.value.s, f, g, search); }
    ConstantsSame(a.value, b.value, f, g);
    ApplicatorsSame(a, b, "allOf");
    ApplicatorsSame(a, b, "anyOf");
    ApplicatorsSame(a, b, "oneOf");
    LookupSame(f, g, "anyOf");
    LookupSame(f, g, "oneOf");
    ConditionsSame(a, b);
  }

  ghost predicate ProperSetting(e: RankedSetting) {
    forall s :: s in e.rank ==> Proper(s)
  }

  lemma ProperPart(part: Json, value: Json)
    requires PartOf(part, value) && Proper(value)
    ensures Proper(part) && part < value
  {
  }

  /** Documents and instances that print alike satisfy alike, whatever ranking witnesses termination. */
  lemma {:induction false} OrderIndependent(v: Json, w: Json, s: Json, t: Json, e: RankedSetting, d: RankedSetting)
    requires SameText(v, w) && SameText(s, t) && SameText(e.root, d.root) && e.search == d.search
    requires Proper(v) && Proper(w) && ProperSetting(d)
    requires s in e.rank && t in d.rank
    ensures WellFormed(e) && WellFormed(d) ==> Satisfies(v, s, e) == Satisfies(w, t, d)
    decreases v, e.rank[s]
  {
    hide StepHolds, WellFormedNode, Ranked, Asks, Known, Satisfies, PartOf;
    if !WellFormed(e) || !WellFormed(d) { return; }
    var a, b := Side(v, s, e.root, Known(v, s, e)), Side(w, t, d.root, Known(w, t, d));
    forall v', w', s', t' | SideAsks(a, v', s') && SideAsks(b, w', t') && SameText(v', w') && SameText(s', t')
      ensures a.holds(v', s') == b.holds(w', t')
    {
      AsksKnown(v, s, e, v', s');
      AsksKnown(w, t, d, w', t');
      AsksDescend(v, s, e, v', s');
      AskedProper(v, s, e.root, v', s');
      AskedProper(w, t, d.root, w', t');
      OrderIndependent(v', w', s', t', e, d);
    }
    NodesAreObjects(s, e);
    NodesAreObjects(t, d);
    StepSame(a, b, e.search);
    UnfoldSatisfies(v, s, e);
    UnfoldSatisfies(w, t, d);
  }

  lemma UnfoldSatisfies(v: Json, s: Json, e: RankedSetting)
    requires s in e.rank
    ensures Satisfies(v, s, e) == StepHolds(v, s, e.root, e.search, Known(v, s, e))
  {
  }

  lemma NodesAreObjects(s: Json, e: RankedSetting)
    requires s in e.rank && WellFormedNode(s, e.root, e.search)
    ensures s.Obj?
  {
  }

  lemma AskedProper(value: Json, schema: Json, root: Json, v: Json, t: Json)
    requires Asks(value, schema, root, v, t) && Proper(value)
    ensures Proper(v)
  {
    hide Applies, Descends;
    if v != value { ProperPart(v, value); }
  }

  /** The validator gives the same verdict on documents that print alike. */
  lemma CheckOrderIndependent(v: Json, w: Json, s: Json, t: Json, e: RankedSetting, d: RankedSetting)
    requires SameText(v, w) && SameText(s, t) && SameText(e.root, d.root) && e.search == d.search
    requires Proper(v) && Proper(w) && ProperSetting(d)
    requires s in e.rank && t in d.rank
    ensures WellFormed(e) && WellFormed(d) ==> Check(v, s, e) == Check(w, t, d)
  {
    hide Check, Satisfies, WellFormed, Ranked, SameText, Proper;
    CheckMeaning(v, s, e);
    CheckMeaning(w, t, d);
    OrderIndependent(v, w, s, t, e, d);
  }
}
