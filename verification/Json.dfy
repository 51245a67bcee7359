/**
 JSON documents as the source's loader returns them: objects keep the order of their keys,
 and the key of an object occurs once.
 */
module Json {
  import opened Wrappers

  datatype Json =
    | Null
    | Bool(b: bool)
    | Int(i: int)
    | Float(r: real)
    | Str(s: string)
    | Arr(items: seq<Json>)
    | Obj(fields: seq<(string, Json)>)

  function Lookup(fields: seq<(string, Json)>, key: string): (r: Option<Json>)
    ensures r.Some? ==> (key, r.value) in fields
    ensures r.None? <==> forall i :: 0 <= i < |fields| ==> fields[i].0 != key
  {
    if fields == [] then None
    else if fields[0].0 == key then Some(fields[0].1)
    else Lookup(fields[1..], key)
  }

  function GetOr(fields: seq<(string, Json)>, key: string, default: Json): (r: Json) {
    match Lookup(fields, key)
    case Some(v) => v
    case None => default
  }

  predicate Number(j: Json) { j.Bool? || j.Int? || j.Float? }

  function Numeric(j: Json): (r: real)
    requires Number(j)
  {
    match j
    case Bool(b) => if b then 1.0 else 0.0
    case Int(i) => i as real
    case Float(r) => r
  }

  /** The host language's `==`: booleans are the numbers 0 and 1, integers and floats compare by value. */
  predicate HostEqual(a: Json, b: Json)
    decreases a
  {
    if Number(a) && Number(b) then Numeric(a) == Numeric(b)
    else
      match (a, b)
      case (Null, Null) => true
      case (Str(s), Str(t)) => s == t
      case (Arr(xs), Arr(ys)) => |xs| == |ys| && forall i :: 0 <= i < |xs| ==> HostEqual(xs[i], ys[i])
      case (Obj(f), Obj(g)) =>
        && (forall i :: 0 <= i < |f| ==> Lookup(g, f[i].0).Some? && HostEqual(f[i].1, Lookup(g, f[i].0).value))
        && (forall i :: 0 <= i < |g| ==> Lookup(f, g[i].0).Some?)
      case _ => false
  }

  /** Equal up to the order of object keys: exactly when the two print alike with sorted keys. */
  predicate SameText(a: Json, b: Json)
    decreases a
  {
    match (a, b)
    case (Arr(xs), Arr(ys)) => |xs| == |ys| && forall i :: 0 <= i < |xs| ==> SameText(xs[i], ys[i])
    case (Obj(f), Obj(g)) =>
      && (forall i :: 0 <= i < |f| ==> Lookup(g, f[i].0).Some? && SameText(f[i].1, Lookup(g, f[i].0).value))
      && (forall i :: 0 <= i < |g| ==> Lookup(f, g[i].0).Some?)
    case _ => a == b
  }

  predicate Truthy(j: Json) {
    match j
    case Null => false
    case Bool(b) => b
    case Int(i) => i != 0
    case Float(r) => r != 0.0
    case Str(s) => s != []
    case Arr(xs) => xs != []
    case Obj(f) => f != []
  }

  /** Keys are distinct in every object of the document, as the loader guarantees. */
  predicate Proper(j: Json)
    decreases j
  {
    match j
    case Arr(xs) => forall i :: 0 <= i < |xs| ==> Proper(xs[i])
    case Obj(f) =>
      && (forall i, k :: 0 <= i < k < |f| ==> f[i].0 != f[k].0)
      && (forall i :: 0 <= i < |f| ==> Proper(f[i].1))
    case _ => true
  }

  lemma {:induction false} LookupAt(f: seq<(string, Json)>, i: nat)
    requires i < |f| && forall a, b :: 0 <= a < b < |f| ==> f[a].0 != f[b].0
    ensures Lookup(f, f[i].0) == Some(f[i].1)
  {
    if i > 0 { LookupAt(f[1..], i - 1); }
  }

  /** Documents that print alike answer every lookup alike. */
  lemma LookupSame(f: seq<(string, Json)>, g: seq<(string, Json)>, key: string)
    requires SameText(Obj(f), Obj(g))
    ensures match Lookup(f, key)
            case None => Lookup(g, key) == None
            case Some(x) => Lookup(g, key).Some? && SameText(x, Lookup(g, key).value)
  {
    hide SameText;
    assert SameTextObjects(f, g) by { SameTextUnfold(f, g); }
    if Lookup(f, key).Some? {
      var i :| 0 <= i < |f| && f[i] == (key, Lookup(f, key).value);
      assert Lookup(g, f[i].0).Some?;
    }
  }

  ghost predicate SameTextObjects(f: seq<(string, Json)>, g: seq<(string, Json)>) {
    && (forall i :: 0 <= i < |f| ==> Lookup(g, f[i].0).Some? && SameText(f[i].1, Lookup(g, f[i].0).value))
    && (forall i :: 0 <= i < |g| ==> Lookup(f, g[i].0).Some?)
  }

  lemma SameTextUnfold(f: seq<(string, Json)>, g: seq<(string, Json)>)
    ensures SameText(Obj(f), Obj(g)) <==> SameTextObjects(f, g)
  {
  }

  lemma {:induction false} SameTextSymmetric(a: Json, b: Json)
    requires SameText(a, b) && Proper(b)
    ensures SameText(b, a)
    decreases a
  {
    match (a, b) {
      case (Arr(xs), Arr(ys)) =>
        forall i | 0 <= i < |xs| ensures SameText(ys[i], xs[i]) {
          SameTextSymmetric(xs[i], ys[i]);
        }
      case (Obj(f), Obj(g)) =>
        forall i | 0 <= i < |g| ensures Lookup(f, g[i].0).Some? && SameText(g[i].1, Lookup(f, g[i].0).value) {
          LookupSame(f, g, g[i].0);
          LookupAt(g, i);
          var x := Lookup(f, g[i].0).value;
          assert (g[i].0, x) in f;
          SameTextSymmetric(x, g[i].1);
        }
        forall i | 0 <= i < |f| ensures Lookup(g, f[i].0).Some? {}
      case _ =>
    }
  }

  lemma {:induction false} SameTextTransitive(a: Json, b: Json, c: Json)
    requires SameText(a, b) && SameText(b, c)
    ensures SameText(a, c)
    decreases a
  {
    match (a, b) {
      case (Arr(xs), Arr(ys)) =>
        forall i | 0 <= i < |xs| ensures SameText(xs[i], c.items[i]) {
          SameTextTransitive(xs[i], ys[i], c.items[i]);
        }
      case (Obj(f), Obj(g)) =>
        var h := c.fields;
        SameTextUnfold(f, g);
        SameTextUnfold(g, h);
        forall i | 0 <= i < |f| ensures Lookup(h, f[i].0).Some? && SameText(f[i].1, Lookup(h, f[i].0).value) {
          LookupSame(g, h, f[i].0);
          SameTextTransitive(f[i].1, Lookup(g, f[i].0).value, Lookup(h, f[i].0).value);
        }
        forall i | 0 <= i < |h| ensures Lookup(f, h[i].0).Some? {
          LookupSame(g, h, h[i].0);
          LookupSame(f, g, h[i].0);
        }
        SameTextUnfold(f, h);
      case _ =>
    }
  }

  /** The host language's equality does not see the order of keys. */
  lemma {:induction false} HostEqualSame(a: Json, a': Json, b: Json, b': Json)
    requires HostEqual(a, b) && SameText(a, a') && SameText(b, b') && Proper(a')
    ensures HostEqual(a', b')
    decreases a, 1
  {
    if a.Arr? && b.Arr? {
      forall i | 0 <= i < |a.items| ensures HostEqual(a'.items[i], b'.items[i]) {
        HostEqualSame(a.items[i], a'.items[i], b.items[i], b'.items[i]);
      }
    } else if a.Obj? && b.Obj? {
      HostEqualSameFields(a, a'.fields, b.fields, b'.fields);
    }
  }

  lemma {:induction false} HostEqualSameFields(a: Json, f': seq<(string, Json)>, g: seq<(string, Json)>,
                                               g': seq<(string, Json)>)
    requires a.Obj? && HostEqual(a, Obj(g)) && SameText(a, Obj(f')) && SameText(Obj(g), Obj(g')) && Proper(Obj(f'))
    ensures HostEqual(Obj(f'), Obj(g'))
    decreases a, 0
  {
    hide SameText, Lookup;
    var f := a.fields;
    forall i | 0 <= i < |f'| ensures Lookup(g', f'[i].0).Some? && HostEqual(f'[i].1, Lookup(g', f'[i].0).value) {
      var key := f'[i].0;
      LookupSame(f, f', key);
      LookupAt(f', i);
      var j :| 0 <= j < |f| && f[j] == (key, Lookup(f, key).value);
      LookupSame(g, g', key);
      assert HostEqual(f[j].1, Lookup(g, f[j].0).value);
      HostEqualSame(f[j].1, f'[i].1, Lookup(g, key).value, Lookup(g', key).value);
    }
    forall i | 0 <= i < |g'| ensures Lookup(f', g'[i].0).Some? {
      var key := g'[i].0;
      LookupSame(g, g', key);
      var j :| 0 <= j < |g| && g[j].0 == key;
      assert Lookup(f, g[j].0).Some?;
      LookupSame(f, f', key);
    }
  }
}
