/**
 Where the validator and JSON Schema 2020-12 read a document differently: `const` and `enum` (section
 6.1 of JSON Schema Validation 2020-12, compared as section 4.2.2 of JSON Schema Core asks), `type`
 with whole floats (section 6.1.1), `uniqueItems` (section 6.4.3), `additionalProperties` with a schema
 (section 10.3.2.3 of JSON Schema Core), and keywords that the validator ignores, such as the numeric
 bounds (section 6.2) and the sizes of objects (sections 6.5.1 and 6.5.2); and where they do not.
 */
module JsonSchemaStandard {
  import opened Wrappers
  import opened Json
  import opened JsonEquality
  import opened JsonSchema
  import opened JsonSchemaMeaning

  // ---------------------------------------------------------------- the integer type

  predicate Whole(r: real) { r.Floor as real == r }

  /** A number with zero fraction is an integer, however it is written. */
  predicate StandardType(value: Json, kind: string) {
    HasType(value, kind) || (kind == "integer" && value.Float? && Whole(value.r))
  }

  /** The schema names the kind. */
  predicate Names(f: Fields, kind: string) {
    var expected := GetOr(f, "type", Null);
    || expected == Str(kind)
    || (expected.Arr? && exists i :: 0 <= i < |expected.items| && expected.items[i] == Str(kind))
  }

  predicate TypeStandard(value: Json, f: Fields) {
    GetOr(f, "type", Null) == Null || exists kind <- KINDS :: Names(f, kind) && StandardType(value, kind)
  }

  lemma TypeByName(value: Json, f: Fields)
    requires KindAt(f)
    ensures TypeHolds(value, f) <==>
              GetOr(f, "type", Null) == Null || exists kind <- KINDS :: Names(f, kind) && HasType(value, kind)
  {
    hide Lookup;
    var expected := GetOr(f, "type", Null);
    if expected.Str? {
      assert Names(f, expected.s);
    } else if expected.Arr? {
      if i :| 0 <= i < |expected.items| && HasType(value, expected.items[i].s) {
        assert Names(f, expected.items[i].s);
      }
      if kind :| kind in KINDS && Names(f, kind) && HasType(value, kind) {
        var i :| 0 <= i < |expected.items| && expected.items[i] == Str(kind);
      }
    }
  }

  /** The types are read alike, for every instance, exactly when `integer` is named only together with `number`. */
  lemma TypeFaithful(f: Fields)
    requires KindAt(f)
    ensures (Names(f, "integer") ==> Names(f, "number")) <==> forall v :: TypeHolds(v, f) == TypeStandard(v, f)
  {
    hide KindAt, TypeHolds, Names;
    forall v
      ensures TypeHolds(v, f) <==>
                GetOr(f, "type", Null) == Null || exists kind <- KINDS :: Names(f, kind) && HasType(v, kind) {
      TypeByName(v, f);
    }
    if Names(f, "integer") ==> Names(f, "number") {
      forall v ensures TypeHolds(v, f) == TypeStandard(v, f) {
        if kind :| kind in KINDS && Names(f, kind) && StandardType(v, kind) && !HasType(v, kind) {
          assert HasType(v, "number") && "number" in KINDS;
        }
      }
    } else {
      var v := Float(1.0);
      assert Whole(1.0) && StandardType(v, "integer") && "integer" in KINDS;
      assert TypeStandard(v, f);
      assert forall kind <- KINDS :: HasType(v, kind) ==> kind == "number";
      NamedNotNull(f, "integer");
      assert !TypeHolds(v, f);
    }
  }

  lemma NamedNotNull(f: Fields, kind: string)
    requires Names(f, kind)
    ensures GetOr(f, "type", Null) != Null
  {
  }

  // ---------------------------------------------------------------- unique items

  predicate StandardUnique(items: seq<Json>) {
    forall i, j :: 0 <= i < j < |items| ==> !JsonEqual(items[i], items[j])
  }

  /** Holds no integer and no float with zero fraction: numbers that can be written in two ways. */
  predicate OneSpelling(a: Json)
    decreases a
  {
    match a
    case Int(_) => false
    case Float(r) => !Whole(r)
    case Arr(xs) => forall i :: 0 <= i < |xs| ==> OneSpelling(xs[i])
    case Obj(f) => forall i :: 0 <= i < |f| ==> OneSpelling(f[i].1)
    case _ => true
  }

  lemma {:induction false} OneSpellingSame(a: Json, b: Json)
    requires OneSpelling(a) && JsonEqual(a, b)
    ensures SameText(a, b)
    decreases a
  {
    match (a, b) {
      case (Arr(xs), Arr(ys)) =>
        forall i | 0 <= i < |xs| ensures SameText(xs[i], ys[i]) { OneSpellingSame(xs[i], ys[i]); }
      case (Obj(f), Obj(g)) =>
        forall i | 0 <= i < |f| ensures SameText(f[i].1, Lookup(g, f[i].0).value) {
          OneSpellingSame(f[i].1, Lookup(g, f[i].0).value);
        }
      case _ =>
    }
  }

  /** The same document with integers and whole floats written the other way. */
  function Respelled(a: Json): (b: Json)
    decreases a
  {
    match a
    case Int(i) => Float(i as real)
    case Float(r) => if Whole(r) then Int(r.Floor) else a
    case Arr(xs) => Arr(seq(|xs|, i requires 0 <= i < |xs| => Respelled(xs[i])))
    case Obj(f) => Obj(seq(|f|, i requires 0 <= i < |f| => (f[i].0, Respelled(f[i].1))))
    case _ => a
  }

  ghost predicate Twin(a: Json, b: Json) { JsonEqual(a, b) && Proper(b) && (SameText(a, b) ==> OneSpelling(a)) }

  lemma {:induction false} TwinArray(xs: seq<Json>, ys: seq<Json>)
    requires |xs| == |ys| && forall i :: 0 <= i < |xs| ==> Twin(xs[i], ys[i])
    ensures Twin(Arr(xs), Arr(ys))
  {
  }

  lemma {:induction false} TwinObject(f: seq<(string, Json)>, g: seq<(string, Json)>)
    requires SameKeys(f, g) && DistinctKeys(g) && forall i :: 0 <= i < |f| ==> Twin(f[i].1, g[i].1)
    ensures Twin(Obj(f), Obj(g))
  {
    hide JsonEqual, SameText, Lookup;
    AlignedObjects(f, g);
    SameTextUnfold(f, g);
    forall i | 0 <= i < |f| ensures Lookup(g, f[i].0) == Some(g[i].1) { LookupAt(g, i); }
  }

  lemma TwinLeaf(a: Json)
    requires !a.Arr? && !a.Obj?
    ensures Twin(a, Respelled(a))
  {
  }

  lemma {:induction false} RespelledTwin(a: Json)
    requires Proper(a)
    ensures Twin(a, Respelled(a))
    decreases a
  {
    hide Twin;
    match a {
      case Arr(xs) =>
        forall i | 0 <= i < |xs| ensures Twin(xs[i], Respelled(xs[i])) { RespelledTwin(xs[i]); }
        TwinArray(xs, Respelled(a).items);
      case Obj(f) =>
        forall i | 0 <= i < |f| ensures Twin(f[i].1, Respelled(f[i].1)) { RespelledTwin(f[i].1); }
        TwinObject(f, Respelled(a).fields);
      case _ => TwinLeaf(a);
    }
  }

  /** Printing an item tells it apart exactly as JSON equality does if and only if it has one spelling. */
  lemma PrintedFaithful(a: Json)
    requires Proper(a)
    ensures OneSpelling(a) <==> forall b :: Proper(b) && JsonEqual(a, b) ==> SameText(a, b)
  {
    hide JsonEqual, SameText, OneSpelling, Respelled;
    if OneSpelling(a) {
      forall b | JsonEqual(a, b) ensures SameText(a, b) { OneSpellingSame(a, b); }
    } else {
      RespelledTwin(a);
      var b := Respelled(a);
      assert Proper(b) && JsonEqual(a, b) && !SameText(a, b);
    }
  }

  /** The validator takes 1 and 1.0 for different items. */
  lemma UniqueDiverges()
    ensures Unique([Int(1), Float(1.0)]) && !StandardUnique([Int(1), Float(1.0)])
  {
    var items := [Int(1), Float(1.0)];
    assert !SameText(items[0], items[1]) && JsonEqual(items[0], items[1]);
  }

  // ---------------------------------------------------------------- additional properties

  /** Members that are not declared satisfy `additionalProperties`, when that is a schema. */
  predicate PropertyStandard(key: string, item: Json, f: Fields, holds: Facts) {
    match PropertyOf(GetOr(f, "properties", Obj([])), key)
    case Schema(t) => holds(item, t)
    case _ =>
      match Lookup(f, "additionalProperties")
      case None => true
      case Some(Bool(b)) => b
      case Some(t) => holds(item, t)
  }

  /** Absent, boolean, or a schema that every value satisfies. */
  ghost predicate OpenOrClosed(f: Fields, holds: Facts) {
    match Lookup(f, "additionalProperties")
    case None => true
    case Some(Bool(_)) => true
    case Some(t) => forall v :: holds(v, t)
  }

  lemma {:induction false} UndeclaredKey(f: Fields) returns (key: string)
    ensures Lookup(f, key).None? && key != ""
    ensures forall i :: 0 <= i < |f| ==> |f[i].0| < |key|
  {
    if f == [] {
      key := "x";
    } else {
      var rest := UndeclaredKey(f[1..]);
      key := rest + f[0].0;
      forall i | 0 <= i < |f| ensures |f[i].0| < |key| {
        if i > 0 { assert f[i] == f[1..][i - 1]; }
      }
    }
  }

  /** The members of objects are read alike exactly when `additionalProperties` says no more than the code sees. */
  lemma AdditionalFaithful(f: Fields, holds: Facts)
    requires GetOr(f, "properties", Obj([])).Obj?
    ensures OpenOrClosed(f, holds) <==>
              forall key, v :: PropertyHolds(key, v, f, holds) == PropertyStandard(key, v, f, holds)
  {
    hide Lookup;
    if !OpenOrClosed(f, holds) {
      var t := Lookup(f, "additionalProperties").value;
      var v :| !holds(v, t);
      var key := UndeclaredKey(GetOr(f, "properties", Obj([])).fields);
      assert PropertyHolds(key, v, f, holds) != PropertyStandard(key, v, f, holds);
    }
  }

  // ---------------------------------------------------------------- bounds that the validator ignores

  /** The number that a keyword gives. */
  function Bound(f: Fields, key: string): (r: Option<real>) {
    match Lookup(f, key)
    case Some(Int(i)) => Some(i as real)
    case Some(Float(r)) => Some(r)
    case _ => None
  }

  function Times(k: int, m: real): real { k as real * m }

  ghost predicate MultipleOf(r: real, m: real) { exists k :: r == Times(k, m) }

  ghost predicate RangeStandard(r: real, f: Fields) {
    && (Bound(f, "minimum").Some? ==> Bound(f, "minimum").value <= r)
    && (Bound(f, "maximum").Some? ==> r <= Bound(f, "maximum").value)
    && (Bound(f, "exclusiveMinimum").Some? ==> Bound(f, "exclusiveMinimum").value < r)
    && (Bound(f, "exclusiveMaximum").Some? ==> r < Bound(f, "exclusiveMaximum").value)
    && (Bound(f, "multipleOf").Some? ==> MultipleOf(r, Bound(f, "multipleOf").value))
  }

  const NUMERIC := {"minimum", "maximum", "exclusiveMinimum", "exclusiveMaximum", "multipleOf"}

  lemma NotHalf(k: int, m: real)
    requires m > 0.0
    ensures m / 2.0 != Times(k, m)
  {
    if k >= 1 {
      assert Times(k - 1, m) >= 0.0;
      assert Times(k, m) == Times(k - 1, m) + m;
    } else {
      assert Times(k, m) <= 0.0;
    }
  }

  lemma Halves(m: real)
    requires m > 0.0
    ensures !MultipleOf(m / 2.0, m)
  {
    hide Times;
    forall k ensures m / 2.0 != Times(k, m) { NotHalf(k, m); }
  }

  /** Every number passes exactly when none of these keywords gives a bound. */
  lemma RangeFaithful(f: Fields)
    requires Bound(f, "multipleOf").Some? ==> Bound(f, "multipleOf").value > 0.0
    ensures (forall key <- NUMERIC :: Bound(f, key).None?) <==> forall r :: RangeStandard(r, f)
  {
    hide Bound, MultipleOf;
    if key :| key in NUMERIC && Bound(f, key).Some? {
      var b := Bound(f, key).value;
      match key {
        case "minimum" => assert !RangeStandard(b - 1.0, f);
        case "maximum" => assert !RangeStandard(b + 1.0, f);
        case "multipleOf" =>
          Halves(b);
          assert !RangeStandard(b / 2.0, f);
        case _ => assert !RangeStandard(b, f);
      }
    }
  }

  predicate SizeStandard(n: nat, f: Fields) {
    && (Bound(f, "minProperties").Some? ==> Bound(f, "minProperties").value <= n as real)
    && (Bound(f, "maxProperties").Some? ==> n as real <= Bound(f, "maxProperties").value)
  }

  /** Objects of every size pass exactly when there is no upper bound and the lower one is not positive. */
  lemma SizeFaithful(f: Fields)
    ensures && Bound(f, "maxProperties").None?
            && (Bound(f, "minProperties").Some? ==> Bound(f, "minProperties").value <= 0.0)
            <==> forall n: nat :: SizeStandard(n, f)
  {
    hide Bound;
    if Bound(f, "maxProperties").Some? {
      var b := Bound(f, "maxProperties").value;
      var n := if b < 0.0 then 0 else b.Floor + 1;
      assert !SizeStandard(n, f);
    } else if Bound(f, "minProperties").Some? && Bound(f, "minProperties").value > 0.0 {
      assert !SizeStandard(0, f);
    }
  }

  // ---------------------------------------------------------------- the standard relation

  predicate ConstantsStandard(value: Json, f: Fields)
    requires ListAt(f, "enum")
  {
    && (Lookup(f, "const").Some? ==> JsonEqual(value, Lookup(f, "const").value))
    && (Lookup(f, "enum").Some? ==> AmongJson(value, Lookup(f, "enum").value.items))
  }

  predicate ObjectStandard(fields: Fields, f: Fields, holds: Facts)
    requires KeysAt(f)
  {
    && RequiredHold(fields, f) && SizeStandard(|fields|, f)
    && forall i :: 0 <= i < |fields| ==> PropertyStandard(fields[i].0, fields[i].1, f, holds)
  }

  ghost predicate NumberStandard(value: Json, f: Fields) {
    value.Int? || value.Float? ==> RangeStandard(Numeric(value), f)
  }

  ghost predicate ArrayStandard(items: seq<Json>, f: Fields, holds: Facts)
    requires NumberAt(f, "minItems") && NumberAt(f, "maxItems")
    requires NumberAt(f, "minContains") && NumberAt(f, "maxContains")
  {
    && Within(|items|, f, "minItems", 0, "maxItems")
    && (Truthy(GetOr(f, "uniqueItems", Null)) ==> StandardUnique(items))
    && (Lookup(f, "items").Some? ==>
          var t := Lookup(f, "items").value; forall i :: 0 <= i < |items| ==> holds(items[i], t))
    && (Lookup(f, "contains").Some? ==>
          var t := Lookup(f, "contains").value;
          Within(|set i | 0 <= i < |items| && holds(items[i], t)|, f, "minContains", 1, "maxContains"))
  }

  /** What a schema says by the standard, given what its subschemas say. */
  ghost predicate StandardStep(value: Json, schema: Json, root: Json, search: Search, holds: Facts) {
    WellFormedNode(schema, root, search) &&
    var f := schema.fields;
    && (Target(f, root).Some? ==> holds(value, Target(f, root).value))
    && TypeStandard(value, f)
    && NumberStandard(value, f)
    && (value.Obj? ==> ObjectStandard(value.fields, f, holds))
    && (value.Arr? ==> ArrayStandard(value.items, f, holds))
    && (value.Str? ==> StringHolds(value.s, f, search))
    && ConstantsStandard(value, f)
    && AllHold(value, Parts(f, "allOf"), holds)
    && (Lookup(f, "anyOf").Some? ==> SomeHolds(value, Parts(f, "anyOf"), holds))
    && (Lookup(f, "oneOf").Some? ==> OneHolds(value, Parts(f, "oneOf"), holds))
    && ConditionsHold(value, f, holds)
  }

  /** The schema for members that are not declared, when there is one. */
  predicate Extra(s: Json, t: Json) { s.Obj? && Lookup(s.fields, "additionalProperties") == Some(t) && t.Obj? }

  ghost predicate ExtraClosed(rank: map<Json, nat>) { forall s, t :: s in rank && Extra(s, t) ==> t in rank }

  /** A setting that covers the schemas of `additionalProperties` too. */
  type StandardSetting = e: RankedSetting | ExtraClosed(e.rank) ghost witness Setting(Null, (_, _) => None, map[])

  ghost function StandardKnown(value: Json, schema: Json, e: StandardSetting): (holds: Facts)
    requires schema in e.rank
    decreases value, e.rank[schema], 0
  {
    (v, t) => Descending(value, schema, e, v, t) && StandardSatisfies(v, t, e)
  }

  ghost predicate StandardSatisfies(value: Json, schema: Json, e: StandardSetting)
    requires schema in e.rank
    decreases value, e.rank[schema], 1
  {
    StandardStep(value, schema, e.root, e.search, StandardKnown(value, schema, e))
  }

  // ---------------------------------------------------------------- where the two agree

  /** Keywords of JSON Schema 2020-12 that constrain an instance and that the validator ignores. */
  const IGNORED := NUMERIC + {"minProperties", "maxProperties", "propertyNames", "patternProperties",
                              "dependentRequired", "dependentSchemas", "prefixItems", "unevaluatedItems",
                              "unevaluatedProperties", "$dynamicRef"}

  /** All keywords of JSON Schema 2020-12 that constrain an instance. */
  const CONSTRAINING := IGNORED + {"$ref", "type", "const", "enum", "required", "properties", "additionalProperties",
                                   "minItems", "maxItems", "uniqueItems", "items", "contains", "minContains",
                                   "maxContains", "minLength", "maxLength", "pattern", "allOf", "anyOf", "oneOf", "if",
                                   "then", "else", "not"}

  /** A schema with nothing but annotations. */
  predicate Blank(t: Json) { t.Obj? && forall key <- CONSTRAINING :: Lookup(t.fields, key).None? }

  const COUNTS := {"minItems", "maxItems", "minContains", "maxContains", "minLength", "maxLength"}

  predicate CountAt(f: Fields, key: string) {
    Lookup(f, key).Some? ==> Lookup(f, key).value.Int? && Lookup(f, key).value.i >= 0
  }

  /** Values that the standard allows for keywords whose other values the code reads in its own way. */
  predicate Regular(f: Fields) {
    && (forall key <- COUNTS :: CountAt(f, key))
    && (Lookup(f, "uniqueItems").Some? ==> Lookup(f, "uniqueItems").value.Bool?)
    && Lookup(f, "type") != Some(Null)
    && (Lookup(f, "$ref").Some? ==> Lookup(f, "$ref").value.Str? && '%' !in Lookup(f, "$ref").value.s)
  }

  /**
   The schema uses no ignored keyword, changes no base for references, compares its constant and its
   enumeration as the standard asks for every instance, and leaves undeclared members free or forbidden.
   */
  predicate FaithfulNode(s: Json, root: Json) {
    s.Obj? ==>
      var f := s.fields;
      && Regular(f)
      && (forall key <- IGNORED :: Lookup(f, key).None?)
      && (Lookup(f, "$id").Some? ==> s == root)
      && (Lookup(f, "const").Some? ==> Unambiguous(Lookup(f, "const").value))
      && (Lookup(f, "enum").Some? && Lookup(f, "enum").value.Arr? ==>
            var members := Lookup(f, "enum").value.items;
            Complete(members) && forall i :: 0 <= i < |members| ==> Proper(members[i]))
      && (Lookup(f, "additionalProperties").Some? ==>
            var t := Lookup(f, "additionalProperties").value; t.Bool? || Blank(t))
  }

  ghost predicate Faithful(e: Setting) { forall s :: s in e.rank ==> FaithfulNode(s, e.root) }

  /** Every float in the instance has a fraction. */
  predicate Fractional(v: Json)
    decreases v
  {
    match v
    case Float(r) => !Whole(r)
    case Arr(xs) => forall i :: 0 <= i < |xs| ==> Fractional(xs[i])
    case Obj(f) => forall i :: 0 <= i < |f| ==> Fractional(f[i].1)
    case _ => true
  }

  lemma {:induction false} FractionalSame(a: Json, b: Json)
    requires Fractional(a) && Fractional(b)
    ensures JsonEqual(a, b) <==> SameText(a, b)
    decreases a
  {
    match (a, b) {
      case (Arr(xs), Arr(ys)) =>
        if |xs| == |ys| {
          forall i | 0 <= i < |xs|
            ensures JsonEqual(xs[i], ys[i]) <==> SameText(xs[i], ys[i]) {
            FractionalSame(xs[i], ys[i]);
          }
        }
      case (Obj(f), Obj(g)) =>
        forall i | 0 <= i < |f| && Lookup(g, f[i].0).Some?
          ensures JsonEqual(f[i].1, Lookup(g, f[i].0).value) <==> SameText(f[i].1, Lookup(g, f[i].0).value)
        {
          FractionalSame(f[i].1, Lookup(g, f[i].0).value);
        }
      case _ =>
    }
  }

  lemma UniqueAgrees(items: seq<Json>)
    requires forall i :: 0 <= i < |items| ==> Fractional(items[i])
    ensures Unique(items) <==> StandardUnique(items)
  {
    hide JsonEqual, SameText, Fractional;
    forall i, j | 0 <= i < j < |items| ensures JsonEqual(items[i], items[j]) <==> SameText(items[i], items[j]) {
      FractionalSame(items[i], items[j]);
    }
  }

  lemma TypeAgrees(value: Json, f: Fields)
    requires KindAt(f) && Fractional(value)
    ensures TypeHolds(value, f) <==> TypeStandard(value, f)
  {
    hide KindAt, TypeHolds, Names;
    TypeByName(value, f);
    assert forall kind :: StandardType(value, kind) <==> HasType(value, kind);
  }

  lemma ConstantsAgree(value: Json, schema: Json, root: Json)
    requires schema.Obj? && ListAt(schema.fields, "enum") && FaithfulNode(schema, root) && Proper(value)
    ensures ConstantsHold(value, schema.fields) <==> ConstantsStandard(value, schema.fields)
  {
    hide HostEqual, JsonEqual, Lookup, Complete, Unambiguous, Regular, Blank;
    var f := schema.fields;
    if Lookup(f, "const").Some? {
      var c := Lookup(f, "const").value;
      HostEqualFaithful(value, c);
      if JsonEqual(value, c) { JsonIsHost(value, c); }
    }
    if Lookup(f, "enum").Some? { CompleteDecides(value, Lookup(f, "enum").value.items); }
  }

  lemma ArrayAgrees(items: seq<Json>, f: Fields, holds: Facts)
    requires NumberAt(f, "minItems") && NumberAt(f, "maxItems")
    requires NumberAt(f, "minContains") && NumberAt(f, "maxContains")
    requires forall i :: 0 <= i < |items| ==> Fractional(items[i])
    ensures ArrayHolds(items, f, holds) <==> ArrayStandard(items, f, holds)
  {
    hide Lookup, Unique, StandardUnique, Within, Truthy;
    UniqueAgrees(items);
  }

  /** Undeclared members satisfy a schema without constraints. */
  ghost predicate Leaves(value: Json, schema: Json, holds: Facts) {
    value.Obj? && schema.Obj? ==>
      forall i, t :: 0 <= i < |value.fields| && Blank(t) && Extra(schema, t) ==> holds(value.fields[i].1, t)
  }

  lemma ObjectAgrees(value: Json, schema: Json, root: Json, holds: Facts)
    requires value.Obj? && schema.Obj? && KeysAt(schema.fields) && FaithfulNode(schema, root)
    requires Leaves(value, schema, holds)
    ensures ObjectHolds(value.fields, schema.fields, holds) <==> ObjectStandard(value.fields, schema.fields, holds)
  {
    hide Lookup, Regular, Blank, Complete, Unambiguous, PropertyOf;
    var f := schema.fields;
    assert Lookup(f, "minProperties").None? && Lookup(f, "maxProperties").None?;
    forall i | 0 <= i < |value.fields|
      ensures PropertyHolds(value.fields[i].0, value.fields[i].1, f, holds) ==
              PropertyStandard(value.fields[i].0, value.fields[i].1, f, holds)
    {
      if Lookup(f, "additionalProperties").Some? && !Lookup(f, "additionalProperties").value.Bool? {
        assert Extra(schema, Lookup(f, "additionalProperties").value) by {
          BlankIsObject(Lookup(f, "additionalProperties").value);
        }
      }
    }
  }

  lemma BlankIsObject(t: Json)
    requires Blank(t)
    ensures t.Obj?
  {
  }

  lemma NumberAgrees(value: Json, schema: Json, root: Json)
    requires schema.Obj? && FaithfulNode(schema, root)
    ensures NumberStandard(value, schema.fields)
  {
    hide Lookup, Regular, Blank, Complete, Unambiguous;
    assert forall key <- NUMERIC :: Lookup(schema.fields, key).None?;
  }

  /** One level of the two relations, with the same facts about subschemas. */
  lemma StepAgrees(value: Json, schema: Json, root: Json, search: Search, holds: Facts)
    requires WellFormedNode(schema, root, search) && FaithfulNode(schema, root) && Proper(value) && Fractional(value)
    requires Leaves(value, schema, holds)
    ensures StepHolds(value, schema, root, search, holds) <==> StandardStep(value, schema, root, search, holds)
  {
    hide Lookup, TypeHolds, TypeStandard, ConstantsHold, ConstantsStandard, ArrayHolds, ArrayStandard, ObjectHolds,
         ObjectStandard, NumberStandard, StringHolds, AllHold, SomeHolds, OneHolds, ConditionsHold, Target, Parts,
         FaithfulNode, Leaves;
    TypeAgrees(value, schema.fields);
    ConstantsAgree(value, schema, root);
    NumberAgrees(value, schema, root);
    if value.Obj? { ObjectAgrees(value, schema, root, holds); }
    if value.Arr? { ArrayAgrees(value.items, schema.fields, holds); }
  }

  function Judging(holds: Facts): Judge { (v, t) => AcceptIf(holds(v, t)) }

  lemma JudgingAgrees(value: Json, schema: Json, root: Json, holds: Facts, others: Facts)
    requires forall v, t :: Asks(value, schema, root, v, t) ==> holds(v, t) == others(v, t)
    ensures Agree(Judging(holds), holds, value, schema, root) && Agree(Judging(holds), others, value, schema, root)
  {
    hide Asks;
  }

  /** One level depends only on the facts that it may ask for. */
  lemma StepExtends(value: Json, schema: Json, root: Json, search: Search, holds: Facts, others: Facts)
    requires WellFormedNode(schema, root, search)
    requires forall v, t :: Asks(value, schema, root, v, t) ==> holds(v, t) == others(v, t)
    ensures StepHolds(value, schema, root, search, holds) == StepHolds(value, schema, root, search, others)
  {
    hide StepHolds, WellFormedNode, Step, Agree;
    var judge := Judging(holds);
    JudgingAgrees(value, schema, root, holds, others);
    StepMeaning(value, schema, root, search, judge, holds);
    StepMeaning(value, schema, root, search, judge, others);
  }

  lemma PartFractional(part: Json, value: Json)
    requires PartOf(part, value) && Proper(value) && Fractional(value)
    ensures Proper(part) && Fractional(part)
  {
  }

  lemma StandardKnownAsks(value: Json, schema: Json, e: StandardSetting, v: Json, t: Json)
    requires schema in e.rank && Asks(value, schema, e.root, v, t)
    ensures t in e.rank && StandardKnown(value, schema, e)(v, t) == StandardSatisfies(v, t, e)
  {
    hide Applies, Descends, StandardSatisfies;
    AsksDescend(value, schema, e, v, t);
  }

  lemma BlankWellFormed(t: Json, root: Json, search: Search)
    requires Blank(t)
    ensures WellFormedNode(t, root, search)
  {
    hide Lookup;
    assert forall key <- CONSTRAINING :: Lookup(t.fields, key).None?;
  }

  lemma BlankShape(value: Json, t: Json, root: Json, search: Search, holds: Facts)
    requires Blank(t) && WellFormedNode(t, root, search)
    ensures NumberStandard(value, t.fields)
    ensures value.Obj? ==> ObjectStandard(value.fields, t.fields, holds)
    ensures value.Arr? ==> ArrayStandard(value.items, t.fields, holds)
    ensures value.Str? ==> StringHolds(value.s, t.fields, search)
  {
    hide Lookup;
    assert forall key <- CONSTRAINING :: Lookup(t.fields, key).None?;
  }

  lemma BlankRest(value: Json, t: Json, root: Json, holds: Facts)
    requires Blank(t)
    ensures var f := t.fields;
            && Target(f, root).None? && TypeStandard(value, f)
            && (Lookup(f, "enum").None? && ConstantsStandard(value, f))
            && Parts(f, "allOf") == [] && Lookup(f, "anyOf").None? && Lookup(f, "oneOf").None?
            && ConditionsHold(value, f, holds)
  {
    hide Lookup;
    assert forall key <- CONSTRAINING :: Lookup(t.fields, key).None?;
  }

  /** A schema without constraints holds of everything. */
  lemma BlankHolds(value: Json, t: Json, e: StandardSetting)
    requires t in e.rank && Blank(t)
    ensures StandardSatisfies(value, t, e)
  {
    hide Lookup, Ranked, ExtraClosed, Blank, WellFormedNode, NumberStandard, ObjectStandard, ArrayStandard, StringHolds,
         Target, TypeStandard, ConstantsStandard, Parts, ConditionsHold, SomeHolds, OneHolds;
    var holds := StandardKnown(value, t, e);
    BlankWellFormed(t, e.root, e.search);
    BlankShape(value, t, e.root, e.search, holds);
    BlankRest(value, t, e.root, holds);
  }

  lemma BlanksLeave(value: Json, schema: Json, e: StandardSetting)
    requires schema in e.rank
    ensures Leaves(value, schema, StandardKnown(value, schema, e))
  {
    hide Blank, StandardSatisfies, Ranked;
    if value.Obj? && schema.Obj? {
      forall i, t | 0 <= i < |value.fields| && Blank(t) && Extra(schema, t)
        ensures StandardKnown(value, schema, e)(value.fields[i].1, t)
      {
        assert value.fields[i].1 < value;
        BlankHolds(value.fields[i].1, t, e);
      }
    }
  }

  /**
   On documents that use no ignored keyword, whose constants are unambiguous and enumerations complete,
   and that leave undeclared members free or forbidden, and on instances whose floats have a fraction,
   the relation that the validator decides is the standard one.
   */
  lemma {:induction false} ReadingsAgree(value: Json, schema: Json, e: StandardSetting)
    requires schema in e.rank && Proper(value) && Fractional(value)
    ensures WellFormed(e) && Faithful(e) ==> (Satisfies(value, schema, e) <==> StandardSatisfies(value, schema, e))
    decreases value, e.rank[schema]
  {
    hide StepHolds, StandardStep, Asks, Ranked, WellFormedNode, FaithfulNode, Proper, Fractional, PartOf, Leaves,
         ExtraClosed;
    if !WellFormed(e) || !Faithful(e) { return; }
    var holds, others := Known(value, schema, e), StandardKnown(value, schema, e);
    forall v, t | Asks(value, schema, e.root, v, t) ensures holds(v, t) == others(v, t) {
      AsksDescend(value, schema, e, v, t);
      AsksKnown(value, schema, e, v, t);
      StandardKnownAsks(value, schema, e, v, t);
      AskedFractional(value, schema, e.root, v, t);
      ReadingsAgree(v, t, e);
    }
    StepExtends(value, schema, e.root, e.search, holds, others);
    BlanksLeave(value, schema, e);
    StepAgrees(value, schema, e.root, e.search, others);
  }

  lemma AskedFractional(value: Json, schema: Json, root: Json, v: Json, t: Json)
    requires Asks(value, schema, root, v, t) && Proper(value) && Fractional(value)
    ensures Proper(v) && Fractional(v)
  {
    hide Applies, Descends;
    if v != value { PartFractional(v, value); }
  }

  /** There the validator accepts exactly the instances that satisfy the schema by the standard. */
  lemma CheckIsStandard(value: Json, schema: Json, e: StandardSetting)
    requires schema in e.rank && Proper(value) && Fractional(value)
    ensures WellFormed(e) && Faithful(e) ==> Check(value, schema, e) == AcceptIf(StandardSatisfies(value, schema, e))
  {
    hide Check, Satisfies, StandardSatisfies, WellFormed, Faithful, Ranked, ExtraClosed, Proper, Fractional;
    CheckMeaning(value, schema, e);
    ReadingsAgree(value, schema, e);
  }

  // ---------------------------------------------------------------- additional properties that only the code accepts

  /** A schema whose only constraint is a schema for the members of objects. */
  predicate Labelling(s: Json, t: Json) {
    Extra(s, t) && forall key <- CONSTRAINING :: key != "additionalProperties" ==> Lookup(s.fields, key).None?
  }

  lemma LabellingWellFormed(s: Json, t: Json, root: Json, search: Search)
    requires Labelling(s, t)
    ensures WellFormedNode(s, root, search)
  {
    hide Lookup;
    assert forall key <- CONSTRAINING :: key != "additionalProperties" ==> Lookup(s.fields, key).None?;
  }

  lemma LabellingObject(fields: Fields, s: Json, t: Json, holds: Facts)
    requires Labelling(s, t)
    ensures KeysAt(s.fields) && ObjectHolds(fields, s.fields, holds)
    ensures ObjectStandard(fields, s.fields, holds) <==> forall i :: 0 <= i < |fields| ==> holds(fields[i].1, t)
  {
    hide Lookup;
    var f := s.fields;
    assert forall key <- CONSTRAINING :: key != "additionalProperties" ==> Lookup(f, key).None?;
    assert Lookup(f, "required").None? && Lookup(f, "properties").None?;
    assert Lookup(f, "minProperties").None? && Lookup(f, "maxProperties").None?;
    assert forall key, item :: PropertyStandard(key, item, f, holds) == holds(item, t);
  }

  lemma LabellingShape(value: Json, s: Json, t: Json, root: Json, search: Search, holds: Facts)
    requires Labelling(s, t) && WellFormedNode(s, root, search)
    ensures NumberStandard(value, s.fields)
    ensures value.Arr? ==> ArrayHolds(value.items, s.fields, holds) && ArrayStandard(value.items, s.fields, holds)
    ensures value.Str? ==> StringHolds(value.s, s.fields, search)
  {
    hide Lookup;
    assert forall key <- CONSTRAINING :: key != "additionalProperties" ==> Lookup(s.fields, key).None?;
  }

  lemma LabellingRest(value: Json, s: Json, t: Json, root: Json, holds: Facts)
    requires Labelling(s, t)
    ensures var f := s.fields;
            && Target(f, root).None? && TypeHolds(value, f) && TypeStandard(value, f)
            && (Lookup(f, "enum").None? && ConstantsHold(value, f) && ConstantsStandard(value, f))
            && Parts(f, "allOf") == [] && Lookup(f, "anyOf").None? && Lookup(f, "oneOf").None?
            && ConditionsHold(value, f, holds)
  {
    hide Lookup;
    assert forall key <- CONSTRAINING :: key != "additionalProperties" ==> Lookup(s.fields, key).None?;
  }

  /** The validator accepts every instance; the standard asks the schema of every member. */
  lemma AdditionalIgnored(value: Json, s: Json, t: Json, e: StandardSetting)
    requires s in e.rank && t in e.rank && Labelling(s, t)
    ensures WellFormed(e) ==> Check(value, s, e) == Valid
    ensures StandardSatisfies(value, s, e) <==>
              (value.Obj? ==> forall i :: 0 <= i < |value.fields| ==> StandardSatisfies(value.fields[i].1, t, e))
  {
    hide Lookup, Ranked, ExtraClosed, Labelling, WellFormedNode, NumberStandard, ObjectHolds, ObjectStandard,
         ArrayHolds, ArrayStandard, StringHolds, Target, TypeHolds, TypeStandard, ConstantsHold, ConstantsStandard,
         Parts, ConditionsHold, SomeHolds, OneHolds, Check;
    var holds, others := Known(value, s, e), StandardKnown(value, s, e);
    LabellingWellFormed(s, t, e.root, e.search);
    if value.Obj? {
      LabellingObject(value.fields, s, t, holds);
      LabellingObject(value.fields, s, t, others);
    }
    LabellingShape(value, s, t, e.root, e.search, holds);
    LabellingShape(value, s, t, e.root, e.search, others);
    LabellingRest(value, s, t, e.root, holds);
    LabellingRest(value, s, t, e.root, others);
    assert Satisfies(value, s, e);
    CheckMeaning(value, s, e);
    if value.Obj? {
      forall i | 0 <= i < |value.fields|
        ensures others(value.fields[i].1, t) == StandardSatisfies(value.fields[i].1, t, e)
      {
        assert value.fields[i].1 < value;
      }
    }
  }

  const STRINGS := Obj([("type", Str("string"))])

  const LABELS := Obj([("additionalProperties", STRINGS)])

  const NUMBERED := Obj([("a", Int(1))])

  function LabelSetting(search: Search): Setting { Setting(LABELS, search, map[LABELS := 0, STRINGS := 0]) }

  lemma OneKey(key: string, v: Json, other: string)
    ensures Lookup([(key, v)], other) == if other == key then Some(v) else None
  {
    assert [(key, v)][1..] == [];
  }

  lemma StringsKeys()
    ensures Lookup(STRINGS.fields, "type") == Some(Str("string"))
    ensures forall key <- CONSTRAINING :: key != "type" ==> Lookup(STRINGS.fields, key).None?
  {
    hide Lookup;
    forall key ensures Lookup(STRINGS.fields, key) == if key == "type" then Some(Str("string")) else None {
      OneKey("type", Str("string"), key);
    }
  }

  lemma StringsWellFormed(root: Json, search: Search)
    ensures WellFormedNode(STRINGS, root, search)
  {
    hide Lookup;
    StringsKeys();
  }

  lemma StringsNode(root: Json)
    ensures forall t :: !Applies(STRINGS, t, root) && !Descends(STRINGS, t) && !Extra(STRINGS, t)
  {
    hide Lookup;
    StringsKeys();
  }

  lemma LabelsNode(root: Json)
    ensures Labelling(LABELS, STRINGS)
    ensures forall t :: !Applies(LABELS, t, root) && !Descends(LABELS, t) && (Extra(LABELS, t) ==> t == STRINGS)
  {
    hide Lookup;
    forall key ensures Lookup(LABELS.fields, key) == if key == "additionalProperties" then Some(STRINGS) else None {
      OneKey("additionalProperties", STRINGS, key);
    }
  }

  lemma LabelsWellFormed(search: Search)
    ensures var e := LabelSetting(search); Ranked(e.rank, e.root) && ExtraClosed(e.rank) && WellFormed(e)
  {
    hide WellFormedNode, Applies, Descends, Extra, Labelling;
    StringsWellFormed(LABELS, search);
    StringsNode(LABELS);
    LabelsNode(LABELS);
    LabellingWellFormed(LABELS, STRINGS, LABELS, search);
  }

  /**
   `{"additionalProperties": {"type": "string"}}` with `{"a": 1}`: the schema is well formed, the validator
   accepts and the standard rejects.
   */
  lemma AdditionalDiverges(search: Search)
    ensures var e := LabelSetting(search);
            && Ranked(e.rank, e.root) && ExtraClosed(e.rank) && WellFormed(e)
            && Check(NUMBERED, LABELS, e) == Valid && !StandardSatisfies(NUMBERED, LABELS, e)
  {
    hide WellFormed, Ranked, ExtraClosed, Labelling, Check, StandardSatisfies;
    LabelsWellFormed(search);
    LabelsNode(LABELS);
    AdditionalIgnored(NUMBERED, LABELS, STRINGS, LabelSetting(search));
    NumberIsNoString(LabelSetting(search));
    assert NUMBERED.fields[0].1 == Int(1);
  }

  lemma NumberIsNoString(e: StandardSetting)
    requires STRINGS in e.rank
    ensures !StandardSatisfies(Int(1), STRINGS, e)
  {
    hide Ranked, ExtraClosed, WellFormedNode, NumberStandard, ConstantsStandard, ConditionsHold;
    OneKey("type", Str("string"), "type");
    assert !TypeStandard(Int(1), STRINGS.fields);
  }
}
