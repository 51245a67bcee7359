/**
 When the validator terminates: the schemas that a schema document can apply are finitely many, and
 they can be ranked exactly when no schema comes back to itself through applications to the same
 instance.  Cycles through properties, items and contains are allowed.
 */
module JsonSchemaTermination {
  import opened Wrappers
  import opened Json
  import opened JsonSchema
  import opened JsonSchemaMeaning
  import Text

  ghost predicate Closed(nodes: set<Json>, root: Json) {
    forall s, t :: s in nodes && (Applies(s, t, root) || Descends(s, t)) ==> t in nodes
  }

  // ---------------------------------------------------------------- the schemas of a document

  /** The document and everything inside it. */
  ghost function Inside(j: Json): (r: set<Json>)
    ensures j in r
    decreases j
  {
    {j} +
    match j
    case Arr(xs) => set i, x | 0 <= i < |xs| && x in Inside(xs[i]) :: x
    case Obj(f) => set i, x | 0 <= i < |f| && x in Inside(f[i].1) :: x
    case _ => {}
  }

  lemma {:induction false} InsideTransitive(a: Json, b: Json, c: Json)
    requires a in Inside(b) && b in Inside(c)
    ensures a in Inside(c)
    decreases c
  {
    if b != c {
      match c {
        case Arr(xs) =>
          var i :| 0 <= i < |xs| && b in Inside(xs[i]);
          InsideTransitive(a, b, xs[i]);
        case Obj(f) =>
          var i :| 0 <= i < |f| && b in Inside(f[i].1);
          InsideTransitive(a, b, f[i].1);
      }
    }
  }

  lemma FieldInside(j: Json, i: nat)
    requires j.Obj? && i < |j.fields|
    ensures j.fields[i].1 in Inside(j)
  {
    assert j.fields[i].1 in Inside(j.fields[i].1);
  }

  lemma ItemInside(j: Json, i: nat)
    requires j.Arr? && i < |j.items|
    ensures j.items[i] in Inside(j)
  {
    assert j.items[i] in Inside(j.items[i]);
  }

  lemma LookupInside(j: Json, key: string)
    requires j.Obj? && Lookup(j.fields, key).Some?
    ensures Lookup(j.fields, key).value in Inside(j)
  {
    var i :| 0 <= i < |j.fields| && j.fields[i] == (key, Lookup(j.fields, key).value);
    FieldInside(j, i);
  }

  /** What iterating over a value may hand to the validator. */
  ghost function Yields(j: Json): (r: set<Json>) {
    if Iterate(j).Some? then set i | 0 <= i < |Iterate(j).value| :: Iterate(j).value[i] else {}
  }

  /** Everything the validator can come across in the document: a finite set. */
  ghost function Everything(root: Json): set<Json> {
    Inside(root) + set j, t | j in Inside(root) && t in Yields(j) :: t
  }

  lemma ObjectInside(s: Json, root: Json)
    requires s in Everything(root) && s.Obj?
    ensures s in Inside(root)
  {
    if s !in Inside(root) {
      var j :| j in Inside(root) && s in Yields(j);
      assert j.Arr? && s in j.items;
      var i :| 0 <= i < |j.items| && j.items[i] == s;
      ItemInside(j, i);
      InsideTransitive(s, j, root);
    }
  }

  lemma {:induction false} WalkInside(target: Json, components: seq<string>, root: Json)
    requires target in Inside(root) && Walk(target, components).Some?
    ensures Walk(target, components).value in Inside(root)
    decreases |components|
  {
    if components != [] {
      var key := DecodeKey(components[0]);
      LookupInside(target, key);
      var next := Lookup(target.fields, key).value;
      InsideTransitive(next, target, root);
      WalkInside(next, components[1..], root);
    }
  }

  lemma PartInside(s: Json, key: string, t: Json, root: Json)
    requires s in Inside(root) && s.Obj? && t in Parts(s.fields, key)
    ensures t in Everything(root)
  {
    LookupInside(s, key);
    var j := Lookup(s.fields, key).value;
    InsideTransitive(j, s, root);
    var i :| 0 <= i < |Iterate(j).value| && Iterate(j).value[i] == t;
    assert t in Yields(j);
  }

  lemma KeywordInside(s: Json, key: string, root: Json)
    requires s in Inside(root) && s.Obj? && Lookup(s.fields, key).Some?
    ensures Lookup(s.fields, key).value in Everything(root)
  {
    hide Everything;
    LookupInside(s, key);
    InsideTransitive(Lookup(s.fields, key).value, s, root);
    assert Lookup(s.fields, key).value in Everything(root) by { InsideEverything(root); }
  }

  lemma InsideEverything(root: Json)
    ensures Inside(root) <= Everything(root)
  {
  }

  /** No application leaves the finite set. */
  lemma EverythingClosed(root: Json)
    ensures Closed(Everything(root), root)
  {
    hide Everything, Inside, Parts, Lookup, Resolve;
    forall s, t | s in Everything(root) && (Applies(s, t, root) || Descends(s, t)) ensures t in Everything(root) {
      ObjectInside(s, root);
      var f := s.fields;
      if t in Parts(f, "allOf") {
        PartInside(s, "allOf", t, root);
      } else if t in Parts(f, "anyOf") {
        PartInside(s, "anyOf", t, root);
      } else if t in Parts(f, "oneOf") {
        PartInside(s, "oneOf", t, root);
      } else if Target(f, root) == Some(t) {
        TargetInside(f, root);
      } else if GetOr(f, "properties", Null).Obj? && PartOf(t, GetOr(f, "properties", Null)) {
        PropertyInside(s, t, root);
      } else {
        var key :| key in {"if", "then", "else", "not", "items", "contains"} && Lookup(f, key) == Some(t);
        KeywordInside(s, key, root);
      }
    }
  }

  lemma TargetInside(f: Fields, root: Json)
    requires Target(f, root).Some?
    ensures Target(f, root).value in Everything(root)
  {
    hide Inside, Walk;
    var components := Text.Split(Lookup(f, "$ref").value.s[2..], '/');
    WalkInside(root, components, root);
    InsideEverything(root);
  }

  lemma PropertyInside(s: Json, t: Json, root: Json)
    requires s in Inside(root) && s.Obj? && GetOr(s.fields, "properties", Null).Obj?
    requires PartOf(t, GetOr(s.fields, "properties", Null))
    ensures t in Everything(root)
  {
    hide Inside, Everything;
    LookupInside(s, "properties");
    var p := GetOr(s.fields, "properties", Null);
    InsideTransitive(p, s, root);
    var i :| 0 <= i < |p.fields| && p.fields[i].1 == t;
    FieldInside(p, i);
    InsideTransitive(t, p, root);
    InsideEverything(root);
  }

  /** A way from the document to one of its schemas. */
  ghost predicate Path(p: seq<Json>, root: Json) {
    && p != [] && p[0] == root
    && forall i :: 0 <= i < |p| - 1 ==> Applies(p[i], p[i + 1], root) || Descends(p[i], p[i + 1])
  }

  ghost predicate Reachable(s: Json, root: Json) { exists p: seq<Json> :: Path(p, root) && p[|p| - 1] == s }

  /** The schemas that validating against the document can apply. */
  ghost function Nodes(root: Json): set<Json> { set s | s in Everything(root) && Reachable(s, root) }

  /** They include the document, and every schema that one of them applies. */
  lemma NodesClosed(root: Json)
    ensures root in Nodes(root) && Closed(Nodes(root), root)
  {
    hide Applies, Descends, Everything;
    EverythingClosed(root);
    InsideEverything(root);
    assert Path([root], root) && [root][0] == root;
    forall s, t | s in Nodes(root) && (Applies(s, t, root) || Descends(s, t)) ensures t in Nodes(root) {
      var p :| Path(p, root) && p[|p| - 1] == s;
      assert Path(p + [t], root) && (p + [t])[|p|] == t;
    }
  }

  /** Any closed set that contains the document contains them. */
  lemma NodesLeast(root: Json, nodes: set<Json>)
    requires root in nodes && Closed(nodes, root)
    ensures Nodes(root) <= nodes
  {
    hide Applies, Descends, Everything;
    forall s | s in Nodes(root) ensures s in nodes {
      var p :| Path(p, root) && p[|p| - 1] == s;
      PathStays(p, |p| - 1, nodes, root);
    }
  }

  lemma {:induction false} PathStays(p: seq<Json>, i: nat, nodes: set<Json>, root: Json)
    requires root in nodes && Closed(nodes, root) && Path(p, root) && i < |p|
    ensures p[i] in nodes
  {
    hide Applies, Descends;
    if i > 0 {
      PathStays(p, i - 1, nodes, root);
      assert Applies(p[i - 1], p[i], root) || Descends(p[i - 1], p[i]);
    }
  }

  // ---------------------------------------------------------------- chains on one instance

  /** Each schema applies the next one to the same instance. */
  ghost predicate Chain(p: seq<Json>, root: Json) {
    forall i :: 0 <= i < |p| - 1 ==> Applies(p[i], p[i + 1], root)
  }

  ghost predicate Acyclic(nodes: set<Json>, root: Json) {
    forall p: seq<Json> :: |p| >= 2 && p[0] in nodes && Chain(p, root) ==> p[0] != p[|p| - 1]
  }

  ghost predicate ChainFrom(s: Json, n: nat, root: Json) {
    exists p: seq<Json> :: |p| == n && n > 0 && p[0] == s && Chain(p, root)
  }

  lemma {:induction false} ChainStays(p: seq<Json>, i: nat, nodes: set<Json>, root: Json)
    requires Closed(nodes, root) && Chain(p, root) && i < |p| && p[0] in nodes
    ensures p[i] in nodes
  {
    hide Applies, Descends;
    if i > 0 {
      ChainStays(p, i - 1, nodes, root);
      assert Applies(p[i - 1], p[i], root);
    }
  }

  lemma ChainDistinct(p: seq<Json>, nodes: set<Json>, root: Json)
    requires Closed(nodes, root) && Acyclic(nodes, root) && Chain(p, root) && p != [] && p[0] in nodes
    ensures forall i, j :: 0 <= i < j < |p| ==> p[i] != p[j]
    ensures forall i :: 0 <= i < |p| ==> p[i] in nodes
  {
    hide Applies, Descends;
    forall i | 0 <= i < |p| ensures p[i] in nodes {
      ChainStays(p, i, nodes, root);
    }
    forall i, j | 0 <= i < j < |p| ensures p[i] != p[j] {
      var loop := p[i..j + 1];
      forall k | 0 <= k < |loop| - 1 ensures Applies(loop[k], loop[k + 1], root) {
        assert Applies(p[i + k], p[i + k + 1], root);
      }
    }
  }

  lemma {:induction false} DistinctFits(p: seq<Json>, nodes: set<Json>)
    requires forall i, j :: 0 <= i < j < |p| ==> p[i] != p[j]
    requires forall i :: 0 <= i < |p| ==> p[i] in nodes
    ensures |p| <= |nodes|
  {
    if p != [] {
      var n := |p| - 1;
      var rest := nodes - {p[n]};
      DistinctFits(p[..n], rest);
      assert nodes == rest + {p[n]};
    }
  }

  /** The length of the longest chain from `s`, among lengths up to `bound`. */
  ghost function Longest(s: Json, bound: nat, root: Json): (n: nat)
    ensures n <= bound && (n > 0 ==> ChainFrom(s, n, root))
    ensures forall m :: n < m <= bound ==> !ChainFrom(s, m, root)
  {
    if bound == 0 || ChainFrom(s, bound, root) then bound else Longest(s, bound - 1, root)
  }

  /** Each schema of the set with the length of the longest chain from it. */
  ghost function ChainRank(nodes: set<Json>, root: Json): map<Json, nat> {
    map s | s in nodes :: Longest(s, |nodes|, root)
  }

  /** An acyclic closed set of schemas has a ranking: how long the longest chain from a schema is. */
  lemma AcyclicIsRanked(nodes: set<Json>, root: Json)
    requires Closed(nodes, root) && Acyclic(nodes, root)
    ensures ChainRank(nodes, root).Keys == nodes && Ranked(ChainRank(nodes, root), root)
  {
    hide Applies, Descends, Longest;
    var rank := ChainRank(nodes, root);
    forall s, t | s in rank && Applies(s, t, root) ensures t in rank && rank[t] < rank[s] {
      assert t in nodes;
      LongestStep(s, t, nodes, root);
    }
  }

  lemma LongestStep(s: Json, t: Json, nodes: set<Json>, root: Json)
    requires Closed(nodes, root) && Acyclic(nodes, root) && s in nodes && Applies(s, t, root)
    ensures Longest(t, |nodes|, root) < Longest(s, |nodes|, root)
  {
    hide Applies, Descends, Longest;
    var n := Longest(t, |nodes|, root);
    var p: seq<Json> := [];
    if n > 0 {
      p :| |p| == n && p[0] == t && Chain(p, root);
    }
    var longer := [s] + p;
    forall i | 0 <= i < |longer| - 1 ensures Applies(longer[i], longer[i + 1], root) {
      if i > 0 { assert Applies(p[i - 1], p[i], root); }
    }
    ChainDistinct(longer, nodes, root);
    DistinctFits(longer, nodes);
    assert ChainFrom(s, n + 1, root);
  }

  lemma {:induction false} ChainFalls(p: seq<Json>, rank: map<Json, nat>, root: Json)
    requires Ranked(rank, root) && Chain(p, root) && |p| >= 2 && p[0] in rank
    ensures p[|p| - 1] in rank && rank[p[|p| - 1]] < rank[p[0]]
  {
    hide Applies, Descends;
    assert Applies(p[0], p[1], root);
    if |p| > 2 {
      var rest := p[1..];
      forall i | 0 <= i < |rest| - 1 ensures Applies(rest[i], rest[i + 1], root) {
        assert Applies(p[i + 1], p[i + 2], root);
      }
      ChainFalls(rest, rank, root);
    }
  }

  /** Only acyclic closed sets of schemas can be ranked. */
  lemma RankedIsAcyclic(rank: map<Json, nat>, root: Json)
    requires Ranked(rank, root)
    ensures Closed(rank.Keys, root) && Acyclic(rank.Keys, root)
  {
    hide Applies, Descends;
    forall p: seq<Json> | |p| >= 2 && p[0] in rank && Chain(p, root) ensures p[0] != p[|p| - 1] {
      ChainFalls(p, rank, root);
    }
  }

  /** No schema of the document comes back to itself on one instance. */
  ghost predicate Wellfounded(root: Json) { Acyclic(Nodes(root), root) }

  /** The document can be ranked exactly when it is well founded. */
  lemma RankedExactly(root: Json)
    ensures Wellfounded(root) <==> exists rank: map<Json, nat> :: root in rank && Ranked(rank, root)
  {
    hide Ranked, Nodes, Closed, ChainRank;
    NodesClosed(root);
    if Wellfounded(root) {
      AcyclicIsRanked(Nodes(root), root);
      assert root in ChainRank(Nodes(root), root);
    }
    if rank: map<Json, nat> :| root in rank && Ranked(rank, root) {
      RankedIsAcyclic(rank, root);
      NodesLeast(root, rank.Keys);
      FewerAcyclic(Nodes(root), rank.Keys, root);
    }
  }

  lemma FewerAcyclic(few: set<Json>, many: set<Json>, root: Json)
    requires few <= many && Acyclic(many, root)
    ensures Acyclic(few, root)
  {
  }

  /** A ranking of a well-founded document. */
  ghost function RankOf(root: Json): map<Json, nat> { ChainRank(Nodes(root), root) }

  /**
   Validating against a schema document: the run ends whenever the document is well founded, and if
   all its schemas are well formed the verdict is the meaning of the document.
   */
  method ValidateDocument(value: Json, schema: Json, search: Search) returns (v: Verdict)
    requires Wellfounded(schema)
    ensures schema in RankOf(schema) && Ranked(RankOf(schema), schema)
    ensures v == Check(value, schema, Setting(schema, search, RankOf(schema)))
    ensures (forall s :: s in Nodes(schema) ==> WellFormedNode(s, schema, search)) ==>
              v == AcceptIf(Satisfies(value, schema, Setting(schema, search, RankOf(schema))))
  {
    hide Ranked, Closed, Acyclic, WellFormedNode, Check, Satisfies, Longest, Nodes;
    ghost var rank := RankOf(schema);
    NodesClosed(schema);
    AcyclicIsRanked(Nodes(schema), schema);
    v := Validate(value, schema, schema, search, rank);
    if forall s :: s in Nodes(schema) ==> WellFormedNode(s, schema, search) {
      CheckMeaning(value, schema, Setting(schema, search, rank));
    }
  }
}
