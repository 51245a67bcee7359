/**
 The schema validator of scripts/validate_assets.py.  A run has three verdicts: it accepts,
 it raises the validation error that alternatives catch, or it raises any other error
 because the schema is malformed; that one nothing catches.
 */
module JsonSchema {
  import opened Wrappers
  import opened Json
  import opened Text

  datatype Verdict = Valid | Invalid | Fault

  type Fields = seq<(string, Json)>

  /** Regular-expression search: `None` when the pattern does not compile. */
  type Search = (string, string) -> Option<bool>

  /** Runs the second check only when the first one accepts. */
  function Then(first: Verdict, second: Verdict): Verdict {
    if first == Valid then second else first
  }

  function AcceptIf(accept: bool): Verdict {
    if accept then Valid else Invalid
  }

  // ---------------------------------------------------------------- references

  /** `s.replace([x, y], [z])`. */
  function Replace(s: string, x: char, y: char, z: char): (r: string)
    decreases |s|
  {
    if s == [] then []
    else if |s| >= 2 && s[0] == x && s[1] == y then [z] + Replace(s[2..], x, y, z)
    else [s[0]] + Replace(s[1..], x, y, z)
  }

  function DecodeKey(component: string): (key: string) {
    Replace(Replace(component, '~', '1', '/'), '~', '0', '~')
  }

  /** The subschema reached from `target` by following the encoded components. */
  function Walk(target: Json, components: seq<string>): (r: Option<Json>)
    decreases |components|
  {
    if components == [] then Some(target)
    else if !target.Obj? then None
    else
      match Lookup(target.fields, DecodeKey(components[0]))
      case None => None
      case Some(next) => Walk(next, components[1..])
  }

  function Resolve(root: Json, reference: string): (r: Option<Json>) {
    if "#/" <= reference then Walk(root, Split(reference[2..], '/')) else None
  }

  method ResolveReference(root: Json, reference: string) returns (r: Option<Json>)
    ensures r == Resolve(root, reference)
  {
    if !("#/" <= reference) {
      return None;
    }
    var target := root;
    var components := Split(reference[2..], '/');
    for k := 0 to |components|
      invariant Walk(target, components[k..]) == Resolve(root, reference)
    {
      var key := DecodeKey(components[k]);
      if !target.Obj? || Lookup(target.fields, key).None? {
        return None;
      }
      assert components[k..][1..] == components[k + 1..];
      target := Lookup(target.fields, key).value;
    }
    return Some(target);
  }

  // Section 4 of RFC 6901: a key is written with ~ as ~0 and / as ~1.

  /** `s.replace([x], y)`. */
  function Expand(s: string, x: char, y: string): (r: string) {
    if s == [] then [] else (if s[0] == x then y else [s[0]]) + Expand(s[1..], x, y)
  }

  function EncodeKey(key: string): (component: string) {
    Expand(Expand(key, '~', "~0"), '/', "~1")
  }

  function Pointer(keys: seq<string>): (reference: string)
    requires keys != []
  {
    "#/" + Join(seq(|keys|, i requires 0 <= i < |keys| => EncodeKey(keys[i])), '/')
  }

  /** The subschema at a path of plain keys. */
  function At(target: Json, keys: seq<string>): (r: Option<Json>)
    decreases |keys|
  {
    if keys == [] then Some(target)
    else if !target.Obj? then None
    else
      match Lookup(target.fields, keys[0])
      case None => None
      case Some(next) => At(next, keys[1..])
  }

  lemma ExpandStep(c: char, rest: string, x: char, y: string)
    ensures Expand([c] + rest, x, y) == (if c == x then y else [c]) + Expand(rest, x, y)
  {
    assert ([c] + rest)[1..] == rest;
  }

  lemma EncodeKeyStep(c: char, rest: string)
    ensures EncodeKey([c] + rest) == (if c == '~' then "~0" else if c == '/' then "~1" else [c]) + EncodeKey(rest)
  {
    var inner := Expand(rest, '~', "~0");
    ExpandStep(c, rest, '~', "~0");
    if c == '~' {
      assert "~0" + inner == ['~'] + (['0'] + inner);
      ExpandStep('~', ['0'] + inner, '/', "~1");
      ExpandStep('0', inner, '/', "~1");
      assert ['~'] + (['0'] + EncodeKey(rest)) == "~0" + EncodeKey(rest);
    } else {
      ExpandStep(c, inner, '/', "~1");
    }
  }

  /** Decoding undoes encoding, and an encoded key contains no separator. */
  lemma {:induction false} DecodeEncode(key: string)
    ensures Replace(EncodeKey(key), '~', '1', '/') == Expand(key, '~', "~0")
    ensures '/' !in EncodeKey(key)
    ensures DecodeKey(EncodeKey(key)) == key
  {
    if key != [] {
      var c, rest := key[0], key[1..];
      assert key == [c] + rest;
      EncodeKeyStep(c, rest);
      DecodeEncode(rest);
      var e := EncodeKey(rest);
      var inner := Expand(rest, '~', "~0");
      if c == '~' {
        assert (['~', '0'] + e)[1..] == ['0'] + e && (['0'] + e)[1..] == e;
        assert (['~', '0'] + inner)[2..] == inner;
      } else if c == '/' {
        assert (['~', '1'] + e)[2..] == e;
        assert (['/'] + inner)[1..] == inner;
      } else {
        assert ([c] + e)[1..] == e && ([c] + inner)[1..] == inner;
      }
    }
  }

  lemma {:induction false} WalkEncoded(root: Json, keys: seq<string>, components: seq<string>)
    requires |components| == |keys|
    requires forall i :: 0 <= i < |keys| ==> components[i] == EncodeKey(keys[i])
    ensures Walk(root, components) == At(root, keys)
    decreases |keys|
  {
    if keys != [] && root.Obj? {
      DecodeEncode(keys[0]);
      var next := Lookup(root.fields, keys[0]);
      if next.Some? {
        WalkEncoded(next.value, keys[1..], components[1..]);
      }
    }
  }

  /** A pointer written for a path of keys resolves to exactly the subschema at that path. */
  lemma PointerRoundTrip(root: Json, keys: seq<string>)
    requires keys != []
    ensures Resolve(root, Pointer(keys)) == At(root, keys)
  {
    var components := seq(|keys|, i requires 0 <= i < |keys| => EncodeKey(keys[i]));
    forall i | 0 <= i < |components| ensures '/' !in components[i] {
      DecodeEncode(keys[i]);
    }
    SplitJoin(components, '/');
    assert Pointer(keys)[2..] == Join(components, '/');
    WalkEncoded(root, keys, components);
  }

  // ---------------------------------------------------------------- keywords without subschemas

  const KINDS := {"object", "array", "string", "boolean", "integer", "number", "null"}

  predicate HasType(value: Json, kind: string) {
    match kind
    case "object" => value.Obj?
    case "array" => value.Arr?
    case "string" => value.Str?
    case "boolean" => value.Bool?
    case "integer" => value.Int?
    case "number" => value.Int? || value.Float?
    case "null" => value.Null?
    case _ => false
  }

  /** What iterating over a loaded value yields. */
  function Iterate(j: Json): (r: Option<seq<Json>>) {
    match j
    case Arr(xs) => Some(xs)
    case Str(s) => Some(seq(|s|, i requires 0 <= i < |s| => Str([s[i]])))
    case Obj(f) => Some(seq(|f|, i requires 0 <= i < |f| => Str(f[i].0)))
    case _ => None
  }

  function AnyType(value: Json, alternatives: seq<Json>): (v: Verdict)
    requires forall i :: 0 <= i < |alternatives| ==> alternatives[i].Str?
  {
    if alternatives == [] then Invalid
    else if alternatives[0].s !in KINDS then Fault
    else if HasType(value, alternatives[0].s) then Valid
    else AnyType(value, alternatives[1..])
  }

  function TypeCheck(value: Json, f: Fields): (v: Verdict) {
    var expected := GetOr(f, "type", Null);
    if expected == Null then Valid
    else
      var alternatives := if expected.Arr? then expected.items else [expected];
      if alternatives == [] || exists i :: 0 <= i < |alternatives| && !alternatives[i].Str? then Fault
      else AnyType(value, alternatives)
  }

  function RequiredCheck(keys: seq<Json>, fields: Fields): (v: Verdict) {
    if keys == [] then Valid
    else if keys[0].Arr? || keys[0].Obj? then Fault
    else if keys[0].Str? && Lookup(fields, keys[0].s).Some? then RequiredCheck(keys[1..], fields)
    else Invalid
  }

  /** Whether `n` keeps a lower bound; anything but a number raises. */
  function AtLeast(n: nat, bound: Json): (v: Verdict) {
    if Number(bound) then AcceptIf(n as real >= Numeric(bound)) else Fault
  }

  function AtMost(n: nat, f: Fields, key: string): (v: Verdict) {
    match Lookup(f, key)
    case None => Valid
    case Some(bound) => if Number(bound) then AcceptIf(n as real <= Numeric(bound)) else Fault
  }

  predicate Unique(items: seq<Json>) {
    forall i, j :: 0 <= i < j < |items| ==> !SameText(items[i], items[j])
  }

  function SizeCheck(items: seq<Json>, f: Fields): (v: Verdict) {
    Then(AtLeast(|items|, GetOr(f, "minItems", Int(0))),
    Then(AtMost(|items|, f, "maxItems"),
         AcceptIf(Truthy(GetOr(f, "uniqueItems", Null)) ==> Unique(items))))
  }

  function StringCheck(s: string, f: Fields, search: Search): (v: Verdict) {
    Then(AtLeast(|s|, GetOr(f, "minLength", Int(0))),
    Then(AtMost(|s|, f, "maxLength"),
         match Lookup(f, "pattern")
         case None => Valid
         case Some(Str(p)) => if search(p, s).None? then Fault else AcceptIf(search(p, s).value)
         case Some(_) => Fault))
  }

  /** The host language's `value in collection`. */
  function Member(value: Json, collection: Json): (v: Verdict) {
    match collection
    case Arr(xs) => AcceptIf(exists i :: 0 <= i < |xs| && HostEqual(value, xs[i]))
    case Obj(f) => if value.Arr? || value.Obj? then Fault else AcceptIf(value.Str? && Lookup(f, value.s).Some?)
    case Str(s) => if value.Str? then AcceptIf(Substring(value.s, s)) else Fault
    case _ => Fault
  }

  predicate Substring(s: string, t: string) {
    exists i :: 0 <= i <= |t| && s <= t[i..]
  }

  function ConstantCheck(value: Json, f: Fields): (v: Verdict) {
    Then(match Lookup(f, "const")
         case None => Valid
         case Some(c) => AcceptIf(HostEqual(value, c)),
         match Lookup(f, "enum")
         case None => Valid
         case Some(e) => Member(value, e))
  }

  datatype Property = Schema(schema: Json) | Absent | Raises

  /** `properties[key] if key in properties`. */
  function PropertyOf(properties: Json, key: string): (p: Property) {
    match properties
    case Obj(f) => (match Lookup(f, key) case Some(s) => Schema(s) case None => Absent)
    case Arr(xs) => if exists i :: 0 <= i < |xs| && HostEqual(Str(key), xs[i]) then Raises else Absent
    case Str(s) => if Substring(key, s) then Raises else Absent
    case _ => Raises
  }

  // ---------------------------------------------------------------- the graph of subschemas

  /** The reference of a schema, when it has one that resolves. */
  function Target(f: Fields, root: Json): (r: Option<Json>) {
    match Lookup(f, "$ref")
    case Some(Str(reference)) => Resolve(root, reference)
    case _ => None
  }

  function Parts(f: Fields, key: string): (parts: seq<Json>) {
    match Lookup(f, key)
    case None => []
    case Some(j) => if Iterate(j).Some? then Iterate(j).value else []
  }

  /** Schema `s` applies schema `t` to the same instance. */
  predicate Applies(s: Json, t: Json, root: Json) {
    s.Obj? &&
    var f := s.fields;
    || Target(f, root) == Some(t)
    || t in Parts(f, "allOf") || t in Parts(f, "anyOf") || t in Parts(f, "oneOf")
    || Lookup(f, "if") == Some(t) || Lookup(f, "then") == Some(t) || Lookup(f, "else") == Some(t)
    || Lookup(f, "not") == Some(t)
  }

  /** Schema `s` applies schema `t` to a part of the instance. */
  predicate Descends(s: Json, t: Json) {
    s.Obj? &&
    var f := s.fields;
    || Lookup(f, "items") == Some(t)
    || Lookup(f, "contains") == Some(t)
    || (var p := GetOr(f, "properties", Null); p.Obj? && exists i :: 0 <= i < |p.fields| && p.fields[i].1 == t)
  }

  /**
   `rank` covers a set of schemas closed under application, and falls along every application to
   the same instance.  Applications to parts of the instance may form cycles.
   */
  ghost predicate Ranked(rank: map<Json, nat>, root: Json) {
    && (forall s, t :: s in rank && Applies(s, t, root) ==> t in rank && rank[t] < rank[s])
    && (forall s, t :: s in rank && Descends(s, t) ==> t in rank)
  }

  /** An item of an array or a value of an object. */
  predicate PartOf(part: Json, value: Json) {
    || (value.Arr? && part in value.items)
    || (value.Obj? && exists i :: 0 <= i < |value.fields| && value.fields[i].1 == part)
  }

  /** Checking `value` against `schema` may ask whether `v` matches `t`. */
  predicate Asks(value: Json, schema: Json, root: Json, v: Json, t: Json) {
    (v == value && Applies(schema, t, root)) || (PartOf(v, value) && Descends(schema, t))
  }

  lemma DescendsKeywords(schema: Json)
    requires schema.Obj?
    ensures Lookup(schema.fields, "items").Some? ==> Descends(schema, Lookup(schema.fields, "items").value)
    ensures Lookup(schema.fields, "contains").Some? ==> Descends(schema, Lookup(schema.fields, "contains").value)
  {
  }

  lemma DeclaredDescends(schema: Json, key: string)
    requires schema.Obj?
    ensures var p := PropertyOf(GetOr(schema.fields, "properties", Obj([])), key);
            p.Schema? ==> Descends(schema, p.schema)
  {
    var properties := GetOr(schema.fields, "properties", Obj([]));
    if PropertyOf(properties, key).Schema? {
      assert (key, PropertyOf(properties, key).schema) in properties.fields;
    }
  }

  // ---------------------------------------------------------------- one level of the validator

  /** A verdict for every pair of an instance and a schema. */
  type Judge = (Json, Json) -> Verdict

  /** The verdict of running checks in order up to the first that does not accept. */
  function InOrder(verdicts: seq<Verdict>): (v: Verdict) {
    if verdicts == [] then Valid else Then(verdicts[0], InOrder(verdicts[1..]))
  }

  /** How many checks accept when rejections are caught; `None` when one of them raises. */
  function Accepting(verdicts: seq<Verdict>): (n: Option<nat>) {
    if verdicts == [] then Some(0)
    else
      var rest := Accepting(verdicts[1..]);
      if verdicts[0] == Fault || rest.None? then None
      else Some(rest.value + if verdicts[0] == Valid then 1 else 0)
  }

  function OnItems(items: seq<Json>, t: Json, judge: Judge): (verdicts: seq<Verdict>) {
    seq(|items|, i requires 0 <= i < |items| => judge(items[i], t))
  }

  function OnParts(value: Json, parts: seq<Json>, judge: Judge): (verdicts: seq<Verdict>) {
    seq(|parts|, i requires 0 <= i < |parts| => judge(value, parts[i]))
  }

  function ReferenceStep(value: Json, f: Fields, root: Json, judge: Judge): (v: Verdict) {
    if GetOr(f, "$ref", Null) == Null then Valid
    else
      match Target(f, root)
      case None => Fault
      case Some(target) => judge(value, target)
  }

  function PropertyStep(key: string, item: Json, f: Fields, judge: Judge): (v: Verdict) {
    match PropertyOf(GetOr(f, "properties", Obj([])), key)
    case Schema(t) => judge(item, t)
    case Absent => AcceptIf(Lookup(f, "additionalProperties") != Some(Bool(false)))
    case Raises => Fault
  }

  function ObjectStep(fields: Fields, f: Fields, judge: Judge): (v: Verdict) {
    var required := Iterate(GetOr(f, "required", Arr([])));
    if required.None? then Fault
    else Then(RequiredCheck(required.value, fields),
              InOrder(seq(|fields|, i requires 0 <= i < |fields| => PropertyStep(fields[i].0, fields[i].1, f, judge))))
  }

  function ArrayStep(items: seq<Json>, f: Fields, judge: Judge): (v: Verdict) {
    Then(SizeCheck(items, f),
    Then(match Lookup(f, "items")
         case None => Valid
         case Some(t) => InOrder(OnItems(items, t, judge)),
         match Lookup(f, "contains")
         case None => Valid
         case Some(t) => ContainsCheck(Accepting(OnItems(items, t, judge)), f)))
  }

  function ContainsCheck(matches: Option<nat>, f: Fields): (v: Verdict) {
    if matches.None? then Fault
    else Then(AtLeast(matches.value, GetOr(f, "minContains", Int(1))),
              AtMost(matches.value, f, "maxContains"))
  }

  function ShapeStep(value: Json, f: Fields, search: Search, judge: Judge): (v: Verdict) {
    match value
    case Obj(fields) => ObjectStep(fields, f, judge)
    case Arr(items) => ArrayStep(items, f, judge)
    case Str(s) => StringCheck(s, f, search)
    case _ => Valid
  }

  /** The keyword is absent or its value can be iterated over. */
  predicate Iterable(f: Fields, key: string) {
    Lookup(f, key).Some? ==> Iterate(Lookup(f, key).value).Some?
  }

  function AllOfStep(value: Json, f: Fields, judge: Judge): (v: Verdict) {
    if !Iterable(f, "allOf") then Fault else InOrder(OnParts(value, Parts(f, "allOf"), judge))
  }

  function AnyOfStep(value: Json, f: Fields, judge: Judge): (v: Verdict) {
    if Lookup(f, "anyOf").None? then Valid
    else
      var matches := Accepting(OnParts(value, Parts(f, "anyOf"), judge));
      if !Iterable(f, "anyOf") || matches.None? then Fault else AcceptIf(matches.value != 0)
  }

  function OneOfStep(value: Json, f: Fields, judge: Judge): (v: Verdict) {
    if Lookup(f, "oneOf").None? then Valid
    else
      var matches := Accepting(OnParts(value, Parts(f, "oneOf"), judge));
      if !Iterable(f, "oneOf") || matches.None? then Fault else AcceptIf(matches.value == 1)
  }

  function BranchStep(value: Json, branch: Option<Json>, judge: Judge): (v: Verdict) {
    if branch.None? || branch.value == Null then Valid else judge(value, branch.value)
  }

  function IfStep(value: Json, f: Fields, judge: Judge): (v: Verdict) {
    match Lookup(f, "if")
    case None => Valid
    case Some(condition) =>
      match judge(value, condition)
      case Fault => Fault
      case Valid => BranchStep(value, Lookup(f, "then"), judge)
      case Invalid => BranchStep(value, Lookup(f, "else"), judge)
  }

  function NotStep(value: Json, f: Fields, judge: Judge): (v: Verdict) {
    match Lookup(f, "not")
    case None => Valid
    case Some(prohibited) =>
      match judge(value, prohibited)
      case Fault => Fault
      case Valid => Invalid
      case Invalid => Valid
  }

  /** The verdict of one call, given the verdicts of the calls it makes. */
  function Step(value: Json, schema: Json, root: Json, search: Search, judge: Judge): (v: Verdict) {
    if !schema.Obj? then Fault else
    var f := schema.fields;
    Then(ReferenceStep(value, f, root, judge),
    Then(TypeCheck(value, f),
    Then(ShapeStep(value, f, search, judge),
    Then(ConstantCheck(value, f),
    Then(AllOfStep(value, f, judge),
    Then(AnyOfStep(value, f, judge),
    Then(OneOfStep(value, f, judge),
    Then(IfStep(value, f, judge),
         NotStep(value, f, judge)))))))))
  }

  // ---------------------------------------------------------------- the validator

  datatype Setting = Setting(root: Json, search: Search, rank: map<Json, nat>)

  /** A schema document, the pattern matcher and a ranking of its schemas. */
  type RankedSetting = e: Setting | Ranked(e.rank, e.root) ghost witness Setting(Null, (_, _) => None, map[])

  ghost predicate Descending(value: Json, schema: Json, e: RankedSetting, v: Json, t: Json)
    requires schema in e.rank
  {
    t in e.rank && (v < value || (v == value && e.rank[t] < e.rank[schema]))
  }

  /** The verdicts of the calls that a call on `value` and `schema` can make. */
  ghost function Calls(value: Json, schema: Json, e: RankedSetting): (judge: Judge)
    requires schema in e.rank
    decreases value, e.rank[schema], 0
  {
    (v, t) => if Descending(value, schema, e, v, t) then Check(v, t, e) else Fault
  }

  /** The verdict of a whole run.  The measure is the instance first and the rank of the schema second. */
  ghost function Check(value: Json, schema: Json, e: RankedSetting): (v: Verdict)
    requires schema in e.rank
    decreases value, e.rank[schema], 1
  {
    Step(value, schema, e.root, e.search, Calls(value, schema, e))
  }

  /** Every question a call asks goes to a smaller call. */
  lemma AsksDescend(value: Json, schema: Json, e: RankedSetting, v: Json, t: Json)
    requires schema in e.rank && Asks(value, schema, e.root, v, t)
    ensures Descending(value, schema, e, v, t)
    ensures Calls(value, schema, e)(v, t) == Check(v, t, e)
  {
    hide Applies, Descends, Check;
  }

  lemma FromPosition(verdicts: seq<Verdict>, k: nat)
    requires k < |verdicts|
    ensures InOrder(verdicts[k..]) == Then(verdicts[k], InOrder(verdicts[k + 1..]))
    ensures Accepting(verdicts[k..]) ==
            if verdicts[k] == Fault || Accepting(verdicts[k + 1..]).None? then None
            else Some(Accepting(verdicts[k + 1..]).value + if verdicts[k] == Valid then 1 else 0)
  {
    assert verdicts[k..][1..] == verdicts[k + 1..];
  }

  /** `validate` raising nothing, the validation error or another error. */
  method Validate(value: Json, schema: Json, root: Json, search: Search, ghost rank: map<Json, nat>)
    returns (v: Verdict)
    requires Ranked(rank, root) && schema in rank
    ensures v == Check(value, schema, Setting(root, search, rank))
    decreases value, rank[schema], 3
  {
    hide Ranked, Calls, TypeCheck, ConstantCheck, StringCheck, Lookup,
      ReferenceStep, ShapeStep, AllOfStep, AnyOfStep, OneOfStep, IfStep, NotStep;
    if !schema.Obj? {
      return Fault;
    }
    var f := schema.fields;
    v := ValidateReference(value, schema, root, search, rank);
    if v != Valid { return; }
    v := TypeCheck(value, f);
    if v != Valid { return; }
    v := ValidateShape(value, schema, root, search, rank);
    if v != Valid { return; }
    v := ConstantCheck(value, f);
    if v != Valid { return; }
    v := ValidateAll(value, schema, root, search, rank);
    if v != Valid { return; }
    v := ValidateAlternatives(value, schema, root, search, rank);
    if v != Valid { return; }
    v := ValidateConditions(value, schema, root, search, rank);
  }

  method ValidateReference(value: Json, schema: Json, root: Json, search: Search, ghost rank: map<Json, nat>)
    returns (v: Verdict)
    requires Ranked(rank, root) && schema in rank && schema.Obj?
    ensures v == ReferenceStep(value, schema.fields, root, Calls(value, schema, Setting(root, search, rank)))
    decreases value, rank[schema], 2
  {
    hide Ranked, Calls, Check, Lookup, Resolve, Parts;
    var reference := GetOr(schema.fields, "$ref", Null);
    if reference == Null { return Valid; }
    if !reference.Str? { return Fault; }
    var target := ResolveReference(root, reference.s);
    if target.None? { return Fault; }
    assert Target(schema.fields, root) == target;
    assert Applies(schema, target.value, root);
    AsksDescend(value, schema, Setting(root, search, rank), value, target.value);
    v := Validate(value, target.value, root, search, rank);
  }

  method ValidateShape(value: Json, schema: Json, root: Json, search: Search, ghost rank: map<Json, nat>)
    returns (v: Verdict)
    requires Ranked(rank, root) && schema in rank && schema.Obj?
    ensures v == ShapeStep(value, schema.fields, search, Calls(value, schema, Setting(root, search, rank)))
    decreases value, rank[schema], 2
  {
    hide Ranked, Calls, Check, Lookup, SizeCheck, StringCheck, RequiredCheck, Descends;
    var f := schema.fields;
    if value.Obj? {
      var required := Iterate(GetOr(f, "required", Arr([])));
      if required.None? { return Fault; }
      v := RequiredCheck(required.value, value.fields);
      if v != Valid { return; }
      v := ValidateProperties(value, schema, root, search, rank);
    } else if value.Arr? {
      DescendsKeywords(schema);
      v := SizeCheck(value.items, f);
      if v != Valid { return; }
      if Lookup(f, "items").Some? {
        v := ValidateItems(value, Lookup(f, "items").value, schema, root, search, rank);
        if v != Valid { return; }
      }
      if Lookup(f, "contains").Some? {
        var matches := CountMatchingItems(value, Lookup(f, "contains").value, schema, root, search, rank);
        v := ContainsCheck(matches, f);
      }
    } else if value.Str? {
      v := StringCheck(value.s, f, search);
    } else {
      v := Valid;
    }
  }

  method ValidateProperties(value: Json, schema: Json, root: Json, search: Search, ghost rank: map<Json, nat>)
    returns (v: Verdict)
    requires Ranked(rank, root) && schema in rank && schema.Obj? && value.Obj?
    ensures var judge := Calls(value, schema, Setting(root, search, rank));
            v == InOrder(seq(|value.fields|, i requires 0 <= i < |value.fields| =>
                               PropertyStep(value.fields[i].0, value.fields[i].1, schema.fields, judge)))
    decreases value, rank[schema], 1
  {
    hide Ranked, Calls, Check, Lookup, PropertyOf;
    ghost var e := Setting(root, search, rank);
    ghost var judge := Calls(value, schema, e);
    ghost var verdicts := seq(|value.fields|, i requires 0 <= i < |value.fields| =>
                                PropertyStep(value.fields[i].0, value.fields[i].1, schema.fields, judge));
    assert verdicts[0..] == verdicts;
    for k := 0 to |value.fields|
      invariant InOrder(verdicts[k..]) == InOrder(verdicts)
    {
      FromPosition(verdicts, k);
      var (key, item) := value.fields[k];
      var property := PropertyOf(GetOr(schema.fields, "properties", Obj([])), key);
      if property.Schema? {
        DeclaredDescends(schema, key);
        assert PartOf(item, value);
        AsksDescend(value, schema, e, item, property.schema);
        v := Validate(item, property.schema, root, search, rank);
        if v != Valid { return; }
      } else if property.Raises? {
        return Fault;
      } else if Lookup(schema.fields, "additionalProperties") == Some(Bool(false)) {
        return Invalid;
      }
    }
    v := Valid;
  }

  method ValidateItems(value: Json, t: Json, ghost schema: Json, root: Json, search: Search, ghost rank: map<Json, nat>)
    returns (v: Verdict)
    requires Ranked(rank, root) && schema in rank && value.Arr? && Descends(schema, t)
    ensures v == InOrder(OnItems(value.items, t, Calls(value, schema, Setting(root, search, rank))))
    decreases value, rank[schema], 1
  {
    hide Ranked, Calls, Check, Descends;
    ghost var e := Setting(root, search, rank);
    ghost var verdicts := OnItems(value.items, t, Calls(value, schema, e));
    assert verdicts[0..] == verdicts;
    for k := 0 to |value.items|
      invariant InOrder(verdicts[k..]) == InOrder(verdicts)
    {
      FromPosition(verdicts, k);
      AsksDescend(value, schema, e, value.items[k], t);
      v := Validate(value.items[k], t, root, search, rank);
      if v != Valid { return; }
    }
    v := Valid;
  }

  /** Counts the items that match; `None` when one of them raises. */
  method CountMatchingItems(value: Json, t: Json, ghost schema: Json, root: Json, search: Search,
                            ghost rank: map<Json, nat>) returns (n: Option<nat>)
    requires Ranked(rank, root) && schema in rank && value.Arr? && Descends(schema, t)
    ensures n == Accepting(OnItems(value.items, t, Calls(value, schema, Setting(root, search, rank))))
    decreases value, rank[schema], 1
  {
    hide Ranked, Calls, Check, Descends;
    ghost var e := Setting(root, search, rank);
    ghost var verdicts := OnItems(value.items, t, Calls(value, schema, e));
    assert verdicts[0..] == verdicts;
    var matches := 0;
    for k := 0 to |value.items|
      invariant Accepting(verdicts) ==
                if Accepting(verdicts[k..]).None? then None else Some(matches + Accepting(verdicts[k..]).value)
    {
      FromPosition(verdicts, k);
      AsksDescend(value, schema, e, value.items[k], t);
      var v := Validate(value.items[k], t, root, search, rank);
      if v == Fault { return None; }
      if v == Invalid { continue; }
      matches := matches + 1;
    }
    n := Some(matches);
  }

  method ValidateAll(value: Json, schema: Json, root: Json, search: Search, ghost rank: map<Json, nat>)
    returns (v: Verdict)
    requires Ranked(rank, root) && schema in rank && schema.Obj?
    ensures v == AllOfStep(value, schema.fields, Calls(value, schema, Setting(root, search, rank)))
    decreases value, rank[schema], 2
  {
    hide Ranked, Calls, Check, Lookup, Iterate, Target;
    if !Iterable(schema.fields, "allOf") { return Fault; }
    ghost var e := Setting(root, search, rank);
    var parts := Parts(schema.fields, "allOf");
    ghost var verdicts := OnParts(value, parts, Calls(value, schema, e));
    assert verdicts[0..] == verdicts;
    for k := 0 to |parts|
      invariant InOrder(verdicts[k..]) == InOrder(verdicts)
    {
      FromPosition(verdicts, k);
      assert Applies(schema, parts[k], root);
      AsksDescend(value, schema, e, value, parts[k]);
      v := Validate(value, parts[k], root, search, rank);
      if v != Valid { return; }
    }
    v := Valid;
  }

  /** Counts the alternatives that match; `None` when one of them raises. */
  method CountMatchingParts(value: Json, parts: seq<Json>, ghost schema: Json, root: Json, search: Search,
                            ghost rank: map<Json, nat>) returns (n: Option<nat>)
    requires Ranked(rank, root) && schema in rank && forall i :: 0 <= i < |parts| ==> Applies(schema, parts[i], root)
    ensures n == Accepting(OnParts(value, parts, Calls(value, schema, Setting(root, search, rank))))
    decreases value, rank[schema], 1
  {
    hide Ranked, Calls, Check, Applies;
    ghost var e := Setting(root, search, rank);
    ghost var verdicts := OnParts(value, parts, Calls(value, schema, e));
    assert verdicts[0..] == verdicts;
    var matches := 0;
    for k := 0 to |parts|
      invariant Accepting(verdicts) ==
                if Accepting(verdicts[k..]).None? then None else Some(matches + Accepting(verdicts[k..]).value)
    {
      FromPosition(verdicts, k);
      AsksDescend(value, schema, e, value, parts[k]);
      var v := Validate(value, parts[k], root, search, rank);
      if v == Fault { return None; }
      if v == Invalid { continue; }
      matches := matches + 1;
    }
    n := Some(matches);
  }

  method ValidateAlternatives(value: Json, schema: Json, root: Json, search: Search, ghost rank: map<Json, nat>)
    returns (v: Verdict)
    requires Ranked(rank, root) && schema in rank && schema.Obj?
    ensures var judge := Calls(value, schema, Setting(root, search, rank));
            v == Then(AnyOfStep(value, schema.fields, judge), OneOfStep(value, schema.fields, judge))
    decreases value, rank[schema], 2
  {
    hide Ranked, Calls, Check, Lookup, Iterate, Target;
    var f := schema.fields;
    if Lookup(f, "anyOf").Some? {
      if !Iterable(f, "anyOf") { return Fault; }
      var matches := CountMatchingParts(value, Parts(f, "anyOf"), schema, root, search, rank);
      if matches.None? { return Fault; }
      if matches.value == 0 { return Invalid; }
    }
    if Lookup(f, "oneOf").Some? {
      if !Iterable(f, "oneOf") { return Fault; }
      var matches := CountMatchingParts(value, Parts(f, "oneOf"), schema, root, search, rank);
      if matches.None? { return Fault; }
      if matches.value != 1 { return Invalid; }
    }
    v := Valid;
  }

  method ValidateConditions(value: Json, schema: Json, root: Json, search: Search, ghost rank: map<Json, nat>)
    returns (v: Verdict)
    requires Ranked(rank, root) && schema in rank && schema.Obj?
    ensures var judge := Calls(value, schema, Setting(root, search, rank));
            v == Then(IfStep(value, schema.fields, judge), NotStep(value, schema.fields, judge))
    decreases value, rank[schema], 2
  {
    hide Ranked, Calls, Check, Lookup, Iterate, Target, Parts;
    ghost var e := Setting(root, search, rank);
    var f := schema.fields;
    if Lookup(f, "if").Some? {
      var condition := Lookup(f, "if").value;
      AsksDescend(value, schema, e, value, condition);
      v := Validate(value, condition, root, search, rank);
      if v == Fault { return; }
      var branch := if v == Valid then Lookup(f, "then") else Lookup(f, "else");
      if branch.Some? && branch.value != Null {
        AsksDescend(value, schema, e, value, branch.value);
        v := Validate(value, branch.value, root, search, rank);
        if v != Valid { return; }
      }
    }
    if Lookup(f, "not").Some? {
      var prohibited := Lookup(f, "not").value;
      AsksDescend(value, schema, e, value, prohibited);
      v := Validate(value, prohibited, root, search, rank);
      if v == Fault { return; }
      if v == Valid { return Invalid; }
    }
    v := Valid;
  }
}
