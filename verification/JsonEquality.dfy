/**
 Constants and enumerations are compared with the host language's equality, which identifies
 booleans with the numbers 0 and 1.  It is the equality of JSON Schema exactly for constants
 that hold no boolean and no number 0 or 1, and for enumerations that list each of their members
 in every such reading.
 */
module JsonEquality {
  import opened Wrappers
  import opened Json

  /** Equality of JSON values: numbers by value, booleans only with booleans. */
  predicate JsonEqual(a: Json, b: Json)
    decreases a
  {
    match (a, b)
    case (Arr(xs), Arr(ys)) => |xs| == |ys| && forall i :: 0 <= i < |xs| ==> JsonEqual(xs[i], ys[i])
    case (Obj(f), Obj(g)) =>
      && (forall i :: 0 <= i < |f| ==> Lookup(g, f[i].0).Some? && JsonEqual(f[i].1, Lookup(g, f[i].0).value))
      && (forall i :: 0 <= i < |g| ==> Lookup(f, g[i].0).Some?)
    case _ => HostEqual(a, b) && (a.Bool? <==> b.Bool?)
  }

  /** Holds no boolean and no number 0 or 1. */
  predicate Unambiguous(c: Json)
    decreases c
  {
    match c
    case Bool(_) => false
    case Int(i) => i != 0 && i != 1
    case Float(r) => r != 0.0 && r != 1.0
    case Arr(xs) => forall i :: 0 <= i < |xs| ==> Unambiguous(xs[i])
    case Obj(f) => forall i :: 0 <= i < |f| ==> Unambiguous(f[i].1)
    case _ => true
  }

  /** The host language's equality with an unambiguous constant is JSON equality. */
  lemma {:induction false} HostEqualFaithful(v: Json, c: Json)
    requires Unambiguous(c)
    ensures HostEqual(v, c) ==> JsonEqual(v, c)
    decreases v
  {
    match (v, c) {
      case (Arr(xs), Arr(ys)) =>
        if |xs| == |ys| {
          forall i | 0 <= i < |xs| ensures HostEqual(xs[i], ys[i]) ==> JsonEqual(xs[i], ys[i]) {
            HostEqualFaithful(xs[i], ys[i]);
          }
        }
      case (Obj(f), Obj(g)) =>
        forall i | 0 <= i < |f| && Lookup(g, f[i].0).Some?
          ensures HostEqual(f[i].1, Lookup(g, f[i].0).value) ==> JsonEqual(f[i].1, Lookup(g, f[i].0).value)
        {
          HostEqualFaithful(f[i].1, Lookup(g, f[i].0).value);
        }
      case _ =>
    }
  }

  /** The same document with booleans and the numbers 0 and 1 exchanged. */
  function Confused(c: Json): (v: Json)
    decreases c
  {
    match c
    case Bool(b) => Int(if b then 1 else 0)
    case Int(i) => if i == 0 || i == 1 then Bool(i == 1) else c
    case Float(r) => if r == 0.0 || r == 1.0 then Bool(r == 1.0) else c
    case Arr(xs) => Arr(seq(|xs|, i requires 0 <= i < |xs| => Confused(xs[i])))
    case Obj(f) => Obj(seq(|f|, i requires 0 <= i < |f| => (f[i].0, Confused(f[i].1))))
    case _ => c
  }

  /** What exchanging shows about one value. */
  ghost predicate Exposed(v: Json, c: Json) { HostEqual(v, c) && (JsonEqual(v, c) ==> Unambiguous(c)) }

  lemma ExposedArray(xs: seq<Json>, ys: seq<Json>)
    requires |ys| == |xs| && forall i :: 0 <= i < |xs| ==> Exposed(ys[i], xs[i])
    ensures Exposed(Arr(ys), Arr(xs))
  {
    hide HostEqual, JsonEqual, Unambiguous;
    HostArrays(ys, xs);
    JsonArrays(ys, xs);
    UnambiguousArray(xs);
  }

  lemma {:induction false} HostArrays(xs: seq<Json>, ys: seq<Json>)
    ensures HostEqual(Arr(xs), Arr(ys)) <==> |xs| == |ys| && forall i :: 0 <= i < |xs| ==> HostEqual(xs[i], ys[i])
  {
  }

  lemma {:induction false} JsonArrays(xs: seq<Json>, ys: seq<Json>)
    ensures JsonEqual(Arr(xs), Arr(ys)) <==> |xs| == |ys| && forall i :: 0 <= i < |xs| ==> JsonEqual(xs[i], ys[i])
  {
  }

  lemma {:induction false} UnambiguousArray(xs: seq<Json>)
    ensures Unambiguous(Arr(xs)) <==> forall i :: 0 <= i < |xs| ==> Unambiguous(xs[i])
  {
  }

  /** Objects with the same keys in the same order. */
  ghost predicate SameKeys(f: seq<(string, Json)>, g: seq<(string, Json)>) {
    |f| == |g| && forall i :: 0 <= i < |f| ==> f[i].0 == g[i].0
  }

  lemma LookupKeys(f: seq<(string, Json)>, g: seq<(string, Json)>, key: string)
    requires SameKeys(f, g)
    ensures Lookup(f, key).Some? <==> Lookup(g, key).Some?
  {
  }

  predicate DistinctKeys(f: seq<(string, Json)>) { forall i, k :: 0 <= i < k < |f| ==> f[i].0 != f[k].0 }

  /** Between objects with the same distinct keys in the same order, equality is field by field. */
  lemma AlignedObjects(f: seq<(string, Json)>, g: seq<(string, Json)>)
    requires SameKeys(f, g) && DistinctKeys(g)
    ensures HostEqual(Obj(f), Obj(g)) <==> forall i :: 0 <= i < |f| ==> HostEqual(f[i].1, g[i].1)
    ensures JsonEqual(Obj(f), Obj(g)) <==> forall i :: 0 <= i < |f| ==> JsonEqual(f[i].1, g[i].1)
  {
    hide Lookup, HostEqual, JsonEqual;
    forall i | 0 <= i < |f| ensures Lookup(g, f[i].0) == Some(g[i].1) && Lookup(f, g[i].0).Some? {
      LookupAt(g, i);
      LookupKeys(f, g, f[i].0);
    }
    HostObjects(f, g);
    JsonObjects(f, g);
  }

  lemma {:induction false} HostObjects(f: seq<(string, Json)>, g: seq<(string, Json)>)
    ensures HostEqual(Obj(f), Obj(g)) <==>
              && (forall i :: 0 <= i < |f| ==> Lookup(g, f[i].0).Some? && HostEqual(f[i].1, Lookup(g, f[i].0).value))
              && (forall i :: 0 <= i < |g| ==> Lookup(f, g[i].0).Some?)
  {
    hide Lookup;
  }

  lemma {:induction false} JsonObjects(f: seq<(string, Json)>, g: seq<(string, Json)>)
    ensures JsonEqual(Obj(f), Obj(g)) <==>
              && (forall i :: 0 <= i < |f| ==> Lookup(g, f[i].0).Some? && JsonEqual(f[i].1, Lookup(g, f[i].0).value))
              && (forall i :: 0 <= i < |g| ==> Lookup(f, g[i].0).Some?)
  {
    hide Lookup;
  }

  lemma ExposedObject(f: seq<(string, Json)>, g: seq<(string, Json)>)
    requires SameKeys(f, g) && DistinctKeys(g) && forall i :: 0 <= i < |f| ==> Exposed(f[i].1, g[i].1)
    ensures Exposed(Obj(f), Obj(g))
  {
    hide HostEqual, JsonEqual, Unambiguous;
    AlignedObjects(f, g);
    UnambiguousObject(g);
  }

  lemma {:induction false} UnambiguousObject(f: seq<(string, Json)>)
    ensures Unambiguous(Obj(f)) <==> forall i :: 0 <= i < |f| ==> Unambiguous(f[i].1)
  {
  }

  lemma ExposedLeaf(c: Json)
    requires !c.Arr? && !c.Obj?
    ensures Exposed(Confused(c), c)
  {
  }

  /** Exchanging booleans and numbers is invisible to the host language, but not to JSON. */
  lemma {:induction false} ConfusedEqual(c: Json)
    requires Proper(c)
    ensures HostEqual(Confused(c), c)
    ensures JsonEqual(Confused(c), c) ==> Unambiguous(c)
    decreases c
  {
    hide HostEqual, JsonEqual, Unambiguous;
    match c {
      case Arr(xs) =>
        forall i | 0 <= i < |xs| ensures Exposed(Confused(xs[i]), xs[i]) { ConfusedEqual(xs[i]); }
        ExposedArray(xs, Confused(c).items);
      case Obj(f) =>
        forall i | 0 <= i < |f| ensures Exposed(Confused(f[i].1), f[i].1) { ConfusedEqual(f[i].1); }
        ExposedObject(Confused(c).fields, f);
      case _ => ExposedLeaf(c);
    }
  }

  /** A constant is compared as JSON Schema asks, for every instance, exactly when it is unambiguous. */
  lemma ConstantFaithful(c: Json)
    requires Proper(c)
    ensures Unambiguous(c) <==> forall v :: HostEqual(v, c) ==> JsonEqual(v, c)
  {
    if Unambiguous(c) {
      forall v ensures HostEqual(v, c) ==> JsonEqual(v, c) {
        HostEqualFaithful(v, c);
      }
    } else {
      hide HostEqual, JsonEqual, Confused;
      ConfusedEqual(c);
      var v := Confused(c);
      assert HostEqual(v, c) && !JsonEqual(v, c);
    }
  }

  // ---------------------------------------------------------------- enumerations

  /** The host language's equality is the weaker one. */
  lemma {:induction false} JsonIsHost(a: Json, b: Json)
    requires JsonEqual(a, b)
    ensures HostEqual(a, b)
    decreases a
  {
    match (a, b) {
      case (Arr(xs), Arr(ys)) =>
        forall i | 0 <= i < |xs| ensures HostEqual(xs[i], ys[i]) { JsonIsHost(xs[i], ys[i]); }
      case (Obj(f), Obj(g)) =>
        forall i | 0 <= i < |f| ensures HostEqual(f[i].1, Lookup(g, f[i].0).value) {
          JsonIsHost(f[i].1, Lookup(g, f[i].0).value);
        }
      case _ =>
    }
  }

  lemma {:induction false} JsonTransitive(a: Json, b: Json, c: Json)
    requires JsonEqual(a, b) && JsonEqual(b, c)
    ensures JsonEqual(a, c)
    decreases a
  {
    match (a, b) {
      case (Arr(xs), Arr(ys)) =>
        forall i | 0 <= i < |xs| ensures JsonEqual(xs[i], c.items[i]) { JsonTransitive(xs[i], ys[i], c.items[i]); }
      case (Obj(f), Obj(g)) => JsonTransitiveFields(a, g, c);
      case _ =>
    }
  }

  lemma {:induction false} JsonTransitiveFields(a: Json, g: seq<(string, Json)>, c: Json)
    requires a.Obj? && JsonEqual(a, Obj(g)) && JsonEqual(Obj(g), c)
    ensures JsonEqual(a, c)
    decreases a, 0
  {
    hide Lookup;
    var f, h := a.fields, c.fields;
    forall i | 0 <= i < |f| ensures Lookup(h, f[i].0).Some? && JsonEqual(f[i].1, Lookup(h, f[i].0).value) {
      var y := Lookup(g, f[i].0).value;
      var j :| 0 <= j < |g| && g[j] == (f[i].0, y);
      JsonTransitive(f[i].1, y, Lookup(h, g[j].0).value);
    }
    forall i | 0 <= i < |h| ensures Lookup(f, h[i].0).Some? {
      var y := Lookup(g, h[i].0).value;
      var j :| 0 <= j < |g| && g[j] == (h[i].0, y);
    }
  }

  /** Every way to read the booleans and the numbers 0 and 1 of a document as one or the other. */
  function Variants(c: Json): (r: set<Json>)
    decreases c, 1
  {
    match c
    case Arr(xs) => set ys | ys in Choices(xs) :: Arr(ys)
    case Obj(_) => set g | g in FieldChoices(c, 0) :: Obj(g)
    case _ => {c, Confused(c)}
  }

  function Choices(xs: seq<Json>): (r: set<seq<Json>>)
    decreases xs, 0
  {
    if xs == [] then {[]} else set y, ys | y in Variants(xs[0]) && ys in Choices(xs[1..]) :: [y] + ys
  }

  /** The readings of the fields from the k-th on. */
  function FieldChoices(c: Json, k: nat): (r: set<seq<(string, Json)>>)
    requires c.Obj? && k <= |c.fields|
    decreases c, 0, |c.fields| - k
  {
    if k == |c.fields| then {[]}
    else set y, g | y in Variants(c.fields[k].1) && g in FieldChoices(c, k + 1) :: [(c.fields[k].0, y)] + g
  }

  lemma {:induction false} ChoicesMean(xs: seq<Json>, ys: seq<Json>)
    ensures ys in Choices(xs) <==> |ys| == |xs| && forall i :: 0 <= i < |xs| ==> ys[i] in Variants(xs[i])
    decreases |xs|
  {
    hide Variants;
    if xs != [] && ys != [] {
      ChoicesMean(xs[1..], ys[1..]);
      assert ys == [ys[0]] + ys[1..];
      if ys in Choices(xs) {
        var y, zs :| y in Variants(xs[0]) && zs in Choices(xs[1..]) && ys == [y] + zs;
        assert zs == ys[1..] && y == ys[0];
      }
    }
  }

  lemma {:induction false} FieldChoicesUnfold(c: Json, k: nat, g: seq<(string, Json)>)
    requires c.Obj? && k < |c.fields|
    ensures g in FieldChoices(c, k) <==>
              && g != [] && g[0].0 == c.fields[k].0 && g[0].1 in Variants(c.fields[k].1)
              && g[1..] in FieldChoices(c, k + 1)
  {
    hide Variants;
    if g != [] { assert g == [(g[0].0, g[0].1)] + g[1..]; }
    if g in FieldChoices(c, k) {
      var y, h :| y in Variants(c.fields[k].1) && h in FieldChoices(c, k + 1) && g == [(c.fields[k].0, y)] + h;
      assert h == g[1..];
    }
  }

  /** The fields from the k-th on, each with its key and with a reading of its value. */
  ghost predicate ReadsFields(c: Json, k: nat, g: seq<(string, Json)>)
    requires c.Obj? && k <= |c.fields|
  {
    && |g| == |c.fields| - k
    && forall i :: 0 <= i < |g| ==> g[i].0 == c.fields[k + i].0 && g[i].1 in Variants(c.fields[k + i].1)
  }

  lemma {:induction false} FieldChoicesMean(c: Json, k: nat, g: seq<(string, Json)>)
    requires c.Obj? && k <= |c.fields|
    ensures g in FieldChoices(c, k) <==> ReadsFields(c, k, g)
    decreases |c.fields| - k
  {
    hide Variants, FieldChoices, ReadsFields;
    if k == |c.fields| {
      LastFields(c, g);
    } else {
      FieldChoicesUnfold(c, k, g);
      if g != [] { FieldChoicesMean(c, k + 1, g[1..]); }
      ReadsUnfold(c, k, g);
    }
  }

  lemma LastFields(c: Json, g: seq<(string, Json)>)
    requires c.Obj?
    ensures g in FieldChoices(c, |c.fields|) <==> ReadsFields(c, |c.fields|, g)
  {
    hide Variants;
  }

  lemma ReadsUnfold(c: Json, k: nat, g: seq<(string, Json)>)
    requires c.Obj? && k < |c.fields|
    ensures ReadsFields(c, k, g) <==>
              && g != [] && g[0].0 == c.fields[k].0 && g[0].1 in Variants(c.fields[k].1)
              && ReadsFields(c, k + 1, g[1..])
  {
    hide Variants;
    if g != [] {
      var rest := g[1..];
      assert forall i :: 0 <= i < |rest| ==> rest[i] == g[i + 1];
      assert forall i :: 0 < i < |g| ==> g[i] == rest[i - 1];
    }
  }

  /** A variant is a proper document that the host language takes for the original. */
  lemma {:induction false} VariantIsHost(u: Json, c: Json)
    requires Proper(c) && u in Variants(c)
    ensures HostEqual(u, c) && Proper(u)
    decreases c
  {
    hide HostEqual, Variants;
    match c {
      case Arr(xs) =>
        var ys := ArrayVariant(u, xs);
        forall i | 0 <= i < |xs| ensures HostEqual(ys[i], xs[i]) && Proper(ys[i]) { VariantIsHost(ys[i], xs[i]); }
        HostArrays(ys, xs);
      case Obj(f) =>
        var g := ObjectVariant(u, c);
        forall i | 0 <= i < |f| ensures HostEqual(g[i].1, f[i].1) && Proper(g[i].1) { VariantIsHost(g[i].1, f[i].1); }
        AlignedObjects(g, f);
      case _ =>
        LeafVariant(u, c);
    }
  }

  lemma ArrayVariant(u: Json, xs: seq<Json>) returns (ys: seq<Json>)
    requires u in Variants(Arr(xs))
    ensures u == Arr(ys) && |ys| == |xs| && forall i :: 0 <= i < |xs| ==> ys[i] in Variants(xs[i])
  {
    hide Choices;
    ys :| ys in Choices(xs) && u == Arr(ys);
    ChoicesMean(xs, ys);
  }

  lemma ObjectVariant(u: Json, c: Json) returns (g: seq<(string, Json)>)
    requires c.Obj? && u in Variants(c)
    ensures u == Obj(g) && ReadsFields(c, 0, g)
  {
    hide FieldChoices, ReadsFields;
    var h: seq<(string, Json)> :| h in FieldChoices(c, 0) && u == Obj(h);
    FieldChoicesMean(c, 0, h);
    g := h;
  }

  lemma LeafVariant(u: Json, c: Json)
    requires !c.Arr? && !c.Obj? && u in Variants(c)
    ensures HostEqual(u, c) && Proper(u)
  {
    ExposedLeaf(c);
  }

  /** Whatever the host language takes for a document is JSON-equal to one of its variants. */
  lemma {:induction false} HostIsVariant(v: Json, c: Json) returns (u: Json)
    requires Proper(v) && Proper(c) && HostEqual(v, c)
    ensures u in Variants(c) && JsonEqual(v, u)
    decreases c, 1
  {
    match (v, c) {
      case (Arr(vs), Arr(xs)) =>
        var ys := HostArrayVariant(vs, xs, c);
        u := Arr(ys);
      case (Obj(g), Obj(f)) =>
        var h := HostObjectVariant(g, f, c);
        u := Obj(h);
      case _ =>
        u := if v.Bool? <==> c.Bool? then c else Confused(c);
    }
  }

  lemma {:induction false} HostArrayVariant(vs: seq<Json>, xs: seq<Json>, c: Json) returns (ys: seq<Json>)
    requires c == Arr(xs) && Proper(Arr(vs)) && Proper(c) && HostEqual(Arr(vs), c)
    ensures ys in Choices(xs) && JsonEqual(Arr(vs), Arr(ys))
    decreases c, 0
  {
    hide HostEqual, JsonEqual, Variants, Choices;
    HostArrays(vs, xs);
    ys := [];
    for i := 0 to |xs|
      invariant |ys| == i && forall k :: 0 <= k < i ==> ys[k] in Variants(xs[k]) && JsonEqual(vs[k], ys[k])
    {
      var y := HostIsVariant(vs[i], xs[i]);
      ys := ys + [y];
    }
    ChoicesMean(xs, ys);
    JsonArrays(vs, ys);
  }

  /** The fields of equal objects correspond by key. */
  lemma HostFields(g: seq<(string, Json)>, f: seq<(string, Json)>, j: nat)
    requires DistinctKeys(f) && HostEqual(Obj(g), Obj(f)) && j < |f|
    ensures Lookup(g, f[j].0).Some? && HostEqual(Lookup(g, f[j].0).value, f[j].1)
    ensures exists i :: 0 <= i < |g| && g[i] == (f[j].0, Lookup(g, f[j].0).value)
  {
    hide Lookup, HostEqual;
    HostObjects(g, f);
    LookupAt(f, j);
    var x := Lookup(g, f[j].0).value;
    var i :| 0 <= i < |g| && g[i] == (f[j].0, x);
    assert HostEqual(g[i].1, Lookup(f, g[i].0).value);
  }

  lemma {:induction false} HostObjectVariant(g: seq<(string, Json)>, f: seq<(string, Json)>, c: Json)
    returns (h: seq<(string, Json)>)
    requires c == Obj(f) && Proper(Obj(g)) && Proper(c) && HostEqual(Obj(g), c)
    ensures h in FieldChoices(c, 0) && JsonEqual(Obj(g), Obj(h))
    decreases c, 0
  {
    hide HostEqual, JsonEqual, Variants, FieldChoices, Lookup;
    h := [];
    for j := 0 to |f|
      invariant |h| == j
      invariant forall k :: 0 <= k < j ==>
                  && h[k].0 == f[k].0 && h[k].1 in Variants(f[k].1)
                  && Lookup(g, f[k].0).Some? && JsonEqual(Lookup(g, f[k].0).value, h[k].1)
    {
      HostFields(g, f, j);
      var x := Lookup(g, f[j].0).value;
      var i :| 0 <= i < |g| && g[i] == (f[j].0, x);
      var y := HostIsVariant(x, f[j].1);
      h := h + [(f[j].0, y)];
    }
    FieldChoicesMean(c, 0, h);
    MatchedObjects(g, f, h);
  }

  lemma MatchedObjects(g: seq<(string, Json)>, f: seq<(string, Json)>, h: seq<(string, Json)>)
    requires DistinctKeys(g) && DistinctKeys(f) && SameKeys(h, f) && HostEqual(Obj(g), Obj(f))
    requires forall k :: 0 <= k < |f| ==> Lookup(g, f[k].0).Some? && JsonEqual(Lookup(g, f[k].0).value, h[k].1)
    ensures JsonEqual(Obj(g), Obj(h))
  {
    hide Lookup, HostEqual, JsonEqual;
    HostObjects(g, f);
    JsonObjects(g, h);
    forall i | 0 <= i < |g| ensures Lookup(h, g[i].0).Some? && JsonEqual(g[i].1, Lookup(h, g[i].0).value) {
      assert Lookup(f, g[i].0).Some?;
      var k :| 0 <= k < |f| && f[k] == (g[i].0, Lookup(f, g[i].0).value);
      LookupAt(g, i);
      LookupAt(h, k);
    }
  }

  predicate AmongHost(v: Json, members: seq<Json>) { exists i :: 0 <= i < |members| && HostEqual(v, members[i]) }

  predicate AmongJson(v: Json, members: seq<Json>) { exists i :: 0 <= i < |members| && JsonEqual(v, members[i]) }

  /** Each member is listed in every reading of its booleans and numbers. */
  predicate Complete(members: seq<Json>) {
    forall i :: 0 <= i < |members| ==> forall u :: u in Variants(members[i]) ==> AmongJson(u, members)
  }

  /** Membership in an enumeration is decided as JSON Schema asks, for every instance, exactly when it is complete. */
  lemma EnumerationFaithful(members: seq<Json>)
    requires forall i :: 0 <= i < |members| ==> Proper(members[i])
    ensures Complete(members) <==> forall v :: Proper(v) ==> (AmongHost(v, members) <==> AmongJson(v, members))
  {
    hide HostEqual, JsonEqual, Variants, Proper;
    if Complete(members) {
      forall v | Proper(v) ensures AmongHost(v, members) <==> AmongJson(v, members) { CompleteDecides(v, members); }
    } else {
      var i, u :| 0 <= i < |members| && u in Variants(members[i]) && !AmongJson(u, members);
      VariantIsHost(u, members[i]);
      assert AmongHost(u, members);
    }
  }

  lemma CompleteDecides(v: Json, members: seq<Json>)
    requires Proper(v) && Complete(members) && forall i :: 0 <= i < |members| ==> Proper(members[i])
    ensures AmongHost(v, members) <==> AmongJson(v, members)
  {
    hide HostEqual, JsonEqual, Variants, Proper;
    if AmongHost(v, members) {
      var i :| 0 <= i < |members| && HostEqual(v, members[i]);
      var u := HostIsVariant(v, members[i]);
      var j :| 0 <= j < |members| && JsonEqual(u, members[j]);
      JsonTransitive(v, u, members[j]);
    }
    if AmongJson(v, members) {
      var i :| 0 <= i < |members| && JsonEqual(v, members[i]);
      JsonIsHost(v, members[i]);
    }
  }

  /** Two ambiguous members can complete each other. */
  lemma BothReadings()
    ensures Complete([Bool(true), Int(1)]) && !Unambiguous(Bool(true)) && !Unambiguous(Int(1))
  {
    var members := [Bool(true), Int(1)];
    assert JsonEqual(Bool(true), members[0]) && JsonEqual(Int(1), members[1]);
    assert Variants(members[0]) == {Bool(true), Int(1)} && Variants(members[1]) == {Bool(true), Int(1)};
  }
}
