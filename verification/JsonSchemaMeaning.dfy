/**
 What a schema of the supported subset means, stated without loops, counters or exceptions, and
 the proof that the validator decides exactly that on well-formed schemas.  Keywords follow
 sections 10.2.1, 10.2.2 and 10.3 of JSON Schema Core 2020-12.
 */
module JsonSchemaMeaning {
  import opened Wrappers
  import opened Json
  import opened JsonSchema

  // ---------------------------------------------------------------- well-formed schemas

  predicate NumberAt(f: Fields, key: string) {
    Lookup(f, key).Some? ==> Number(Lookup(f, key).value)
  }

  predicate ListAt(f: Fields, key: string) {
    Lookup(f, key).Some? ==> Lookup(f, key).value.Arr?
  }

  predicate KindAt(f: Fields) {
    var expected := GetOr(f, "type", Null);
    || expected == Null
    || (expected.Str? && expected.s in KINDS)
    || (expected.Arr? && expected.items != [] &&
        forall i :: 0 <= i < |expected.items| ==> expected.items[i].Str? && expected.items[i].s in KINDS)
  }

  predicate KeysAt(f: Fields) {
    ListAt(f, "required") &&
    (Lookup(f, "required").Some? ==>
       forall i :: 0 <= i < |Lookup(f, "required").value.items| ==> Lookup(f, "required").value.items[i].Str?)
  }

  ghost predicate PatternAt(f: Fields, search: Search) {
    match Lookup(f, "pattern")
    case None => true
    case Some(Str(p)) => forall s :: search(p, s).Some?
    case Some(_) => false
  }

  ghost predicate WellFormedNode(schema: Json, root: Json, search: Search) {
    schema.Obj? &&
    var f := schema.fields;
    && (GetOr(f, "$ref", Null) != Null ==> Target(f, root).Some?)
    && KindAt(f)
    && KeysAt(f)
    && GetOr(f, "properties", Obj([])).Obj?
    && NumberAt(f, "minItems") && NumberAt(f, "maxItems")
    && NumberAt(f, "minContains") && NumberAt(f, "maxContains")
    && NumberAt(f, "minLength") && NumberAt(f, "maxLength")
    && PatternAt(f, search)
    && ListAt(f, "enum") && ListAt(f, "allOf") && ListAt(f, "anyOf") && ListAt(f, "oneOf")
    && Lookup(f, "then") != Some(Null) && Lookup(f, "else") != Some(Null)
  }

  /** Every schema that the validator may meet is well formed. */
  ghost predicate WellFormed(e: Setting) {
    forall s :: s in e.rank ==> WellFormedNode(s, e.root, e.search)
  }

  // ---------------------------------------------------------------- the meaning of a schema

  predicate TypeHolds(value: Json, f: Fields) {
    var expected := GetOr(f, "type", Null);
    || expected == Null
    || (expected.Str? && HasType(value, expected.s))
    || (expected.Arr? &&
        exists i :: 0 <= i < |expected.items| && expected.items[i].Str? && HasType(value, expected.items[i].s))
  }

  predicate Within(n: nat, f: Fields, low: string, least: int, high: string)
    requires NumberAt(f, low) && NumberAt(f, high)
  {
    && Numeric(GetOr(f, low, Int(least))) <= n as real
    && (Lookup(f, high).Some? ==> n as real <= Numeric(Lookup(f, high).value))
  }

  ghost predicate StringHolds(s: string, f: Fields, search: Search)
    requires NumberAt(f, "minLength") && NumberAt(f, "maxLength") && PatternAt(f, search)
  {
    && Within(|s|, f, "minLength", 0, "maxLength")
    && (Lookup(f, "pattern").Some? ==> search(Lookup(f, "pattern").value.s, s) == Some(true))
  }

  predicate ConstantsHold(value: Json, f: Fields)
    requires ListAt(f, "enum")
  {
    && (Lookup(f, "const").Some? ==> HostEqual(value, Lookup(f, "const").value))
    && (Lookup(f, "enum").Some? ==>
          exists i :: 0 <= i < |Lookup(f, "enum").value.items| && HostEqual(value, Lookup(f, "enum").value.items[i]))
  }

  predicate RequiredHold(fields: Fields, f: Fields)
    requires KeysAt(f)
  {
    Lookup(f, "required").Some? ==>
      forall i :: 0 <= i < |Lookup(f, "required").value.items| ==>
        Lookup(fields, Lookup(f, "required").value.items[i].s).Some?
  }

  /** Which instances match which schemas. */
  type Facts = (Json, Json) -> bool

  /** Every declared property matches its schema, and a closed object has no other. */
  predicate PropertyHolds(key: string, item: Json, f: Fields, holds: Facts) {
    match PropertyOf(GetOr(f, "properties", Obj([])), key)
    case Schema(t) => holds(item, t)
    case _ => Lookup(f, "additionalProperties") != Some(Bool(false))
  }

  predicate ObjectHolds(fields: Fields, f: Fields, holds: Facts)
    requires KeysAt(f)
  {
    && RequiredHold(fields, f)
    && forall i :: 0 <= i < |fields| ==> PropertyHolds(fields[i].0, fields[i].1, f, holds)
  }

  ghost predicate ArrayHolds(items: seq<Json>, f: Fields, holds: Facts)
    requires NumberAt(f, "minItems") && NumberAt(f, "maxItems")
    requires NumberAt(f, "minContains") && NumberAt(f, "maxContains")
  {
    && Within(|items|, f, "minItems", 0, "maxItems")
    && (Truthy(GetOr(f, "uniqueItems", Null)) ==> Unique(items))
    && (Lookup(f, "items").Some? ==>
          var t := Lookup(f, "items").value; forall i :: 0 <= i < |items| ==> holds(items[i], t))
    && (Lookup(f, "contains").Some? ==>
          var t := Lookup(f, "contains").value;
          Within(|set i | 0 <= i < |items| && holds(items[i], t)|, f, "minContains", 1, "maxContains"))
  }

  predicate ConditionsHold(value: Json, f: Fields, holds: Facts) {
    && (Lookup(f, "if").Some? ==>
          var branch := Lookup(f, if holds(value, Lookup(f, "if").value) then "then" else "else");
          branch.Some? ==> holds(value, branch.value))
    && (Lookup(f, "not").Some? ==> !holds(value, Lookup(f, "not").value))
  }

  predicate AllHold(value: Json, parts: seq<Json>, holds: Facts) {
    forall i :: 0 <= i < |parts| ==> holds(value, parts[i])
  }

  predicate SomeHolds(value: Json, parts: seq<Json>, holds: Facts) {
    exists i :: 0 <= i < |parts| && holds(value, parts[i])
  }

  predicate OneHolds(value: Json, parts: seq<Json>, holds: Facts) {
    exists i :: 0 <= i < |parts| && holds(value, parts[i]) &&
                forall j :: 0 <= j < |parts| && j != i ==> !holds(value, parts[j])
  }

  /** What a well-formed schema says about an instance, given what its subschemas say. */
  ghost predicate StepHolds(value: Json, schema: Json, root: Json, search: Search, holds: Facts) {
    WellFormedNode(schema, root, search) &&
    var f := schema.fields;
    && (Target(f, root).Some? ==> holds(value, Target(f, root).value))
    && TypeHolds(value, f)
    && (value.Obj? ==> ObjectHolds(value.fields, f, holds))
    && (value.Arr? ==> ArrayHolds(value.items, f, holds))
    && (value.Str? ==> StringHolds(value.s, f, search))
    && ConstantsHold(value, f)
    && AllHold(value, Parts(f, "allOf"), holds)
    && (Lookup(f, "anyOf").Some? ==> SomeHolds(value, Parts(f, "anyOf"), holds))
    && (Lookup(f, "oneOf").Some? ==> OneHolds(value, Parts(f, "oneOf"), holds))
    && ConditionsHold(value, f, holds)
  }

  ghost function Known(value: Json, schema: Json, e: RankedSetting): (holds: Facts)
    requires schema in e.rank
    decreases value, e.rank[schema], 0
  {
    (v, t) => Descending(value, schema, e, v, t) && Satisfies(v, t, e)
  }

  /** The meaning of a schema: the relation that unfolds to `StepHolds` at every application. */
  ghost predicate Satisfies(value: Json, schema: Json, e: RankedSetting)
    requires schema in e.rank
    decreases value, e.rank[schema], 1
  {
    StepHolds(value, schema, e.root, e.search, Known(value, schema, e))
  }

  lemma AsksKnown(value: Json, schema: Json, e: RankedSetting, v: Json, t: Json)
    requires schema in e.rank && Asks(value, schema, e.root, v, t)
    ensures t in e.rank && Known(value, schema, e)(v, t) == Satisfies(v, t, e)
  {
    hide Applies, Descends, Satisfies;
    AsksDescend(value, schema, e, v, t);
  }

  // ---------------------------------------------------------------- one level decides one level

  /** The verdicts are those of the facts, on everything a call may ask. */
  ghost predicate Agree(judge: Judge, holds: Facts, value: Json, schema: Json, root: Json) {
    forall v, t :: Asks(value, schema, root, v, t) ==> judge(v, t) == AcceptIf(holds(v, t))
  }

  lemma {:induction false} AnyTypeMeaning(value: Json, alternatives: seq<Json>)
    requires forall i :: 0 <= i < |alternatives| ==> alternatives[i].Str? && alternatives[i].s in KINDS
    ensures AnyType(value, alternatives) ==
            AcceptIf(exists i :: 0 <= i < |alternatives| && HasType(value, alternatives[i].s))
  {
    hide HasType;
    if alternatives != [] && !HasType(value, alternatives[0].s) {
      AnyTypeMeaning(value, alternatives[1..]);
      if i :| 0 <= i < |alternatives| && HasType(value, alternatives[i].s) {
        assert HasType(value, alternatives[1..][i - 1].s);
      }
      if i :| 0 <= i < |alternatives[1..]| && HasType(value, alternatives[1..][i].s) {
        assert HasType(value, alternatives[i + 1].s);
      }
    }
  }

  lemma TypeMeaning(value: Json, f: Fields)
    requires KindAt(f)
    ensures TypeCheck(value, f) == AcceptIf(TypeHolds(value, f))
  {
    hide HasType, Lookup;
    var expected := GetOr(f, "type", Null);
    if expected.Arr? {
      AnyTypeMeaning(value, expected.items);
    } else if expected.Str? {
      AnyTypeMeaning(value, [expected]);
      assert [expected][0] == expected;
    }
  }

  lemma {:induction false} RequiredMeaning(keys: seq<Json>, fields: Fields)
    requires forall i :: 0 <= i < |keys| ==> keys[i].Str?
    ensures RequiredCheck(keys, fields) ==
            AcceptIf(forall i :: 0 <= i < |keys| ==> Lookup(fields, keys[i].s).Some?)
  {
    hide Lookup;
    if keys != [] {
      RequiredMeaning(keys[1..], fields);
      if Lookup(fields, keys[0].s).Some? && forall i :: 0 <= i < |keys[1..]| ==> Lookup(fields, keys[1..][i].s).Some? {
        forall i | 0 <= i < |keys| ensures Lookup(fields, keys[i].s).Some? {
          assert i > 0 ==> keys[i] == keys[1..][i - 1];
        }
      }
    }
  }

  /** Running checks in order accepts exactly when all of them accept. */
  lemma {:induction false} InOrderMeaning(verdicts: seq<Verdict>)
    requires Fault !in verdicts
    ensures InOrder(verdicts) == AcceptIf(forall i :: 0 <= i < |verdicts| ==> verdicts[i] == Valid)
  {
    if verdicts != [] {
      InOrderMeaning(verdicts[1..]);
      if InOrder(verdicts[1..]) == Valid && verdicts[0] == Valid {
        assert forall i :: 1 <= i < |verdicts| ==> verdicts[i] == verdicts[1..][i - 1];
      }
    }
  }

  ghost function ValidPositions(verdicts: seq<Verdict>): (m: set<int>) {
    set i | 0 <= i < |verdicts| && verdicts[i] == Valid
  }

  /** The counter counts the positions that accept. */
  lemma {:induction false} AcceptingMeaning(verdicts: seq<Verdict>)
    requires Fault !in verdicts
    ensures Accepting(verdicts) == Some(|ValidPositions(verdicts)|)
    decreases |verdicts|
  {
    var n := |verdicts|;
    if n == 0 {
      assert ValidPositions(verdicts) == {};
    } else {
      AcceptingSnoc(verdicts[..n - 1], verdicts[n - 1]);
      assert verdicts == verdicts[..n - 1] + [verdicts[n - 1]];
      AcceptingMeaning(verdicts[..n - 1]);
      var earlier := ValidPositions(verdicts[..n - 1]);
      assert ValidPositions(verdicts) == if verdicts[n - 1] == Valid then earlier + {n - 1} else earlier;
    }
  }

  lemma {:induction false} AcceptingSnoc(verdicts: seq<Verdict>, last: Verdict)
    requires Fault !in verdicts && last != Fault
    ensures Accepting(verdicts).Some?
    ensures Accepting(verdicts + [last]) == Some(Accepting(verdicts).value + if last == Valid then 1 else 0)
  {
    if verdicts == [] {
      assert Accepting([last][1..]) == Some(0);
    } else {
      AcceptingSnoc(verdicts[1..], last);
      assert (verdicts + [last])[1..] == verdicts[1..] + [last];
    }
  }

  lemma Singleton<T>(s: set<T>)
    ensures |s| == 1 <==> exists i :: i in s && forall j :: j in s ==> j == i
    ensures |s| != 0 <==> exists i :: i in s
  {
    if i :| i in s {
      assert |s| == |s - {i}| + 1;
      if |s| == 1 {
        forall j | j in s ensures j == i {
          assert j != i ==> j in s - {i};
        }
      }
      if k :| k in s && forall j :: j in s ==> j == k {
        assert s == {k};
      }
    } else {
      assert s == {};
    }
  }

  lemma ShapeMeaning(value: Json, schema: Json, root: Json, search: Search, judge: Judge, holds: Facts)
    requires WellFormedNode(schema, root, search) && Agree(judge, holds, value, schema, root)
    ensures value.Obj? ==>
              ObjectStep(value.fields, schema.fields, judge) ==
              AcceptIf(ObjectHolds(value.fields, schema.fields, holds))
    ensures value.Arr? ==>
              ArrayStep(value.items, schema.fields, judge) == AcceptIf(ArrayHolds(value.items, schema.fields, holds))
  {
    if value.Obj? { ObjectMeaning(value, schema, root, judge, holds); }
    if value.Arr? { ArrayMeaning(value, schema, root, judge, holds); }
  }

  lemma ObjectMeaning(value: Json, schema: Json, root: Json, judge: Judge, holds: Facts)
    requires schema.Obj? && Agree(judge, holds, value, schema, root) && value.Obj?
    requires KeysAt(schema.fields) && GetOr(schema.fields, "properties", Obj([])).Obj?
    ensures ObjectStep(value.fields, schema.fields, judge) == AcceptIf(ObjectHolds(value.fields, schema.fields, holds))
  {
    hide Lookup, Agree, PropertyStep, PropertyHolds, InOrder;
    var f, fields := schema.fields, value.fields;
    RequiredMeaning(GetOr(f, "required", Arr([])).items, fields);
    var verdicts := seq(|fields|, i requires 0 <= i < |fields| => PropertyStep(fields[i].0, fields[i].1, f, judge));
    forall i | 0 <= i < |fields|
      ensures verdicts[i] == AcceptIf(PropertyHolds(fields[i].0, fields[i].1, f, holds))
    {
      PropertyMeaning(value, i, schema, root, judge, holds);
    }
    InOrderMeaning(verdicts);
  }

  lemma PropertyMeaning(value: Json, i: nat, schema: Json, root: Json, judge: Judge, holds: Facts)
    requires schema.Obj? && GetOr(schema.fields, "properties", Obj([])).Obj? && Agree(judge, holds, value, schema, root)
    requires value.Obj? && i < |value.fields|
    ensures PropertyStep(value.fields[i].0, value.fields[i].1, schema.fields, judge) ==
            AcceptIf(PropertyHolds(value.fields[i].0, value.fields[i].1, schema.fields, holds))
  {
    hide Applies;
    var (key, item) := value.fields[i];
    var property := PropertyOf(GetOr(schema.fields, "properties", Obj([])), key);
    if property.Schema? {
      DeclaredDescends(schema, key);
      assert Asks(value, schema, root, item, property.schema);
    }
  }

  lemma ArrayMeaning(value: Json, schema: Json, root: Json, judge: Judge, holds: Facts)
    requires schema.Obj? && Agree(judge, holds, value, schema, root) && value.Arr?
    requires NumberAt(schema.fields, "minItems") && NumberAt(schema.fields, "maxItems")
    requires NumberAt(schema.fields, "minContains") && NumberAt(schema.fields, "maxContains")
    ensures ArrayStep(value.items, schema.fields, judge) == AcceptIf(ArrayHolds(value.items, schema.fields, holds))
  {
    hide Lookup, Applies, Descends, Unique, Agree, InOrder, Accepting;
    var f, items := schema.fields, value.items;
    DescendsKeywords(schema);
    if Lookup(f, "items").Some? {
      var t := Lookup(f, "items").value;
      ItemVerdicts(value, t, schema, root, judge, holds);
      InOrderMeaning(OnItems(items, t, judge));
    }
    if Lookup(f, "contains").Some? {
      var t := Lookup(f, "contains").value;
      ItemVerdicts(value, t, schema, root, judge, holds);
      AcceptingMeaning(OnItems(items, t, judge));
      assert ValidPositions(OnItems(items, t, judge)) == set i | 0 <= i < |items| && holds(items[i], t);
    }
  }

  lemma ItemVerdicts(value: Json, t: Json, schema: Json, root: Json, judge: Judge, holds: Facts)
    requires Agree(judge, holds, value, schema, root) && value.Arr? && Descends(schema, t)
    ensures var verdicts := OnItems(value.items, t, judge);
            && Fault !in verdicts
            && forall i :: 0 <= i < |value.items| ==> verdicts[i] == AcceptIf(holds(value.items[i], t))
  {
    hide Applies, Descends;
    forall i | 0 <= i < |value.items| ensures judge(value.items[i], t) == AcceptIf(holds(value.items[i], t)) {
      assert Asks(value, schema, root, value.items[i], t);
    }
  }

  lemma PartVerdicts(value: Json, parts: seq<Json>, schema: Json, root: Json, judge: Judge, holds: Facts)
    requires Agree(judge, holds, value, schema, root)
    requires forall i :: 0 <= i < |parts| ==> Applies(schema, parts[i], root)
    ensures var verdicts := OnParts(value, parts, judge);
            && Fault !in verdicts
            && InOrder(verdicts) == AcceptIf(AllHold(value, parts, holds))
            && Accepting(verdicts).Some?
            && (Accepting(verdicts).value != 0 <==> SomeHolds(value, parts, holds))
            && (Accepting(verdicts).value == 1 <==> OneHolds(value, parts, holds))
  {
    hide Applies, InOrder, Accepting, SomeHolds, OneHolds, ValidPositions;
    var verdicts := OnParts(value, parts, judge);
    forall i | 0 <= i < |parts| ensures verdicts[i] == AcceptIf(holds(value, parts[i])) {
      assert Asks(value, schema, root, value, parts[i]);
    }
    InOrderMeaning(verdicts);
    AcceptingMeaning(verdicts);
    PositionsMeaning(value, parts, verdicts, holds);
    assert InOrder(verdicts) == Valid <==> AllHold(value, parts, holds);
  }

  lemma PositionsMeaning(value: Json, parts: seq<Json>, verdicts: seq<Verdict>, holds: Facts)
    requires |verdicts| == |parts|
    requires forall i :: 0 <= i < |parts| ==> verdicts[i] == AcceptIf(holds(value, parts[i]))
    ensures |ValidPositions(verdicts)| != 0 <==> SomeHolds(value, parts, holds)
    ensures |ValidPositions(verdicts)| == 1 <==> OneHolds(value, parts, holds)
  {
    var m := ValidPositions(verdicts);
    Singleton(m);
    assert forall i :: i in m <==> 0 <= i < |parts| && holds(value, parts[i]);
  }

  lemma ApplicatorMeaning(value: Json, schema: Json, root: Json, judge: Judge, holds: Facts)
    requires schema.Obj? && Agree(judge, holds, value, schema, root)
    requires ListAt(schema.fields, "allOf") && ListAt(schema.fields, "anyOf") && ListAt(schema.fields, "oneOf")
    ensures var f := schema.fields;
            && AllOfStep(value, f, judge) == AcceptIf(AllHold(value, Parts(f, "allOf"), holds))
            && AnyOfStep(value, f, judge) ==
               AcceptIf(Lookup(f, "anyOf").Some? ==> SomeHolds(value, Parts(f, "anyOf"), holds))
            && OneOfStep(value, f, judge) ==
               AcceptIf(Lookup(f, "oneOf").Some? ==> OneHolds(value, Parts(f, "oneOf"), holds))
  {
    hide Lookup, InOrder, Accepting, OnParts, Agree, Parts, AllHold, SomeHolds, OneHolds, Target;
    var f := schema.fields;
    PartVerdicts(value, Parts(f, "allOf"), schema, root, judge, holds);
    PartVerdicts(value, Parts(f, "anyOf"), schema, root, judge, holds);
    PartVerdicts(value, Parts(f, "oneOf"), schema, root, judge, holds);
  }

  lemma ConditionMeaning(value: Json, schema: Json, root: Json, judge: Judge, holds: Facts)
    requires schema.Obj? && Agree(judge, holds, value, schema, root)
    requires Lookup(schema.fields, "then") != Some(Null) && Lookup(schema.fields, "else") != Some(Null)
    ensures Then(IfStep(value, schema.fields, judge), NotStep(value, schema.fields, judge)) ==
            AcceptIf(ConditionsHold(value, schema.fields, holds))
  {
    hide Agree, Lookup, Applies;
    var f := schema.fields;
    KeywordVerdict(value, schema, "if", root, judge, holds);
    KeywordVerdict(value, schema, "then", root, judge, holds);
    KeywordVerdict(value, schema, "else", root, judge, holds);
    KeywordVerdict(value, schema, "not", root, judge, holds);
  }

  lemma KeywordVerdict(value: Json, schema: Json, key: string, root: Json, judge: Judge, holds: Facts)
    requires schema.Obj? && Agree(judge, holds, value, schema, root)
    requires key in {"if", "then", "else", "not"}
    ensures var t := Lookup(schema.fields, key);
            t.Some? ==> judge(value, t.value) == AcceptIf(holds(value, t.value))
  {
    hide Lookup, Parts, Target;
    var t := Lookup(schema.fields, key);
    if t.Some? {
      assert Applies(schema, t.value, root);
      assert Asks(value, schema, root, value, t.value);
    }
  }

  lemma StringMeaning(s: string, f: Fields, search: Search)
    requires NumberAt(f, "minLength") && NumberAt(f, "maxLength") && PatternAt(f, search)
    ensures StringCheck(s, f, search) == AcceptIf(StringHolds(s, f, search))
  {
    hide Lookup;
  }

  lemma ConstantMeaning(value: Json, f: Fields)
    requires ListAt(f, "enum")
    ensures ConstantCheck(value, f) == AcceptIf(ConstantsHold(value, f))
  {
    hide Lookup, HostEqual;
  }

  lemma ReferenceMeaning(value: Json, schema: Json, root: Json, judge: Judge, holds: Facts)
    requires schema.Obj? && (GetOr(schema.fields, "$ref", Null) != Null ==> Target(schema.fields, root).Some?)
    requires Agree(judge, holds, value, schema, root)
    ensures ReferenceStep(value, schema.fields, root, judge) ==
            AcceptIf(Target(schema.fields, root).Some? ==> holds(value, Target(schema.fields, root).value))
  {
    hide Lookup, Resolve, Parts, Descends;
    if Target(schema.fields, root).Some? {
      assert Asks(value, schema, root, value, Target(schema.fields, root).value);
    }
  }

  /** One level of the validator decides one level of the meaning. */
  lemma StepMeaning(value: Json, schema: Json, root: Json, search: Search, judge: Judge, holds: Facts)
    requires WellFormedNode(schema, root, search) && Agree(judge, holds, value, schema, root)
    ensures Step(value, schema, root, search, judge) == AcceptIf(StepHolds(value, schema, root, search, holds))
  {
    hide Agree, Lookup, Target, Parts, TypeCheck, TypeHolds, StringCheck, StringHolds, ConstantCheck, ConstantsHold,
      ObjectStep, ObjectHolds, ArrayStep, ArrayHolds, ReferenceStep, AllOfStep, AnyOfStep, OneOfStep, IfStep, NotStep,
      AllHold, SomeHolds, OneHolds, ConditionsHold;
    var f := schema.fields;
    ReferenceMeaning(value, schema, root, judge, holds);
    TypeMeaning(value, f);
    ShapeMeaning(value, schema, root, search, judge, holds);
    if value.Str? { StringMeaning(value.s, f, search); }
    ConstantMeaning(value, f);
    ApplicatorMeaning(value, schema, root, judge, holds);
    ConditionMeaning(value, schema, root, judge, holds);
  }

  // ---------------------------------------------------------------- the validator decides the meaning

  /**
   On well-formed schemas the validator never faults, accepts exactly the instances the schema
   means, and rejects all others.
   */
  lemma {:induction false} CheckMeaning(value: Json, schema: Json, e: RankedSetting)
    requires schema in e.rank
    ensures WellFormed(e) ==> Check(value, schema, e) == AcceptIf(Satisfies(value, schema, e))
    decreases value, e.rank[schema]
  {
    hide Step, StepHolds, Asks, Ranked, WellFormedNode;
    if !WellFormed(e) { return; }
    var judge, holds := Calls(value, schema, e), Known(value, schema, e);
    forall v, t | Asks(value, schema, e.root, v, t) ensures judge(v, t) == AcceptIf(holds(v, t)) {
      AsksDescend(value, schema, e, v, t);
      AsksKnown(value, schema, e, v, t);
      CheckMeaning(v, t, e);
    }
    StepMeaning(value, schema, e.root, e.search, judge, holds);
  }
}
