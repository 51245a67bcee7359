/**
 Whole schema documents against JSON Schema 2020-12: the schemas that the standard can apply, with those
 of `additionalProperties`, are constructed from the document, and on faithful documents the validator
 decides what the standard asks.
 */
module JsonSchemaDocument {
  import opened Json
  import opened JsonSchema
  import opened JsonSchemaMeaning
  import opened JsonSchemaTermination
  import opened JsonSchemaStandard

  /** By the standard, `s` applies `t` to the instance or to a part of it. */
  predicate Follows(s: Json, t: Json, root: Json) { Applies(s, t, root) || Descends(s, t) || Extra(s, t) }

  lemma EverythingFollowed(s: Json, t: Json, root: Json)
    requires s in Everything(root) && Follows(s, t, root)
    ensures t in Everything(root)
  {
    hide Everything, Applies, Descends, Lookup;
    EverythingClosed(root);
    if Extra(s, t) {
      ObjectInside(s, root);
      KeywordInside(s, "additionalProperties", root);
    }
  }

  ghost predicate Trail(p: seq<Json>, root: Json) {
    p != [] && p[0] == root && forall i :: 0 <= i < |p| - 1 ==> Follows(p[i], p[i + 1], root)
  }

  /** The schemas that the standard can apply. */
  ghost function StandardNodes(root: Json): set<Json> {
    set s | s in Everything(root) && exists p: seq<Json> :: Trail(p, root) && p[|p| - 1] == s
  }

  lemma StandardNodesClosed(root: Json)
    ensures root in StandardNodes(root) && Closed(StandardNodes(root), root)
    ensures forall s, t :: s in StandardNodes(root) && Extra(s, t) ==> t in StandardNodes(root)
  {
    hide Everything, Follows;
    InsideEverything(root);
    assert Trail([root], root) && [root][0] == root;
    forall s, t | s in StandardNodes(root) && Follows(s, t, root) ensures t in StandardNodes(root) {
      EverythingFollowed(s, t, root);
      var p :| Trail(p, root) && p[|p| - 1] == s;
      assert Trail(p + [t], root) && (p + [t])[|p|] == t;
    }
    FollowsAll(root);
  }

  lemma FollowsAll(root: Json)
    ensures forall s, t :: Applies(s, t, root) || Descends(s, t) || Extra(s, t) ==> Follows(s, t, root)
  {
    hide Applies, Descends, Extra;
  }

  /** The document with a ranking of the schemas that the standard can apply. */
  ghost function Ranking(root: Json, search: Search): Setting {
    Setting(root, search, ChainRank(StandardNodes(root), root))
  }

  /** The meaning of a schema does not depend on the ranking. */
  lemma {:induction false} RankIrrelevant(value: Json, schema: Json, e: RankedSetting, d: RankedSetting)
    requires e.root == d.root && e.search == d.search && schema in e.rank && schema in d.rank
    ensures WellFormed(e) && WellFormed(d) ==> Satisfies(value, schema, e) == Satisfies(value, schema, d)
    decreases value, e.rank[schema]
  {
    hide StepHolds, Asks, Ranked, WellFormedNode;
    if !WellFormed(e) || !WellFormed(d) { return; }
    var holds, others := Known(value, schema, e), Known(value, schema, d);
    forall v, t | Asks(value, schema, e.root, v, t) ensures holds(v, t) == others(v, t) {
      AsksDescend(value, schema, e, v, t);
      AsksKnown(value, schema, e, v, t);
      AsksKnown(value, schema, d, v, t);
      RankIrrelevant(v, t, e, d);
    }
    StepExtends(value, schema, e.root, e.search, holds, others);
  }

  /** What the validator applies, the standard applies too. */
  lemma NodesAreStandard(root: Json)
    ensures Nodes(root) <= StandardNodes(root)
    ensures Acyclic(StandardNodes(root), root) ==> Wellfounded(root)
  {
    hide Nodes, StandardNodes, Acyclic;
    StandardNodesClosed(root);
    NodesLeast(root, StandardNodes(root));
    if Acyclic(StandardNodes(root), root) { FewerAcyclic(Nodes(root), StandardNodes(root), root); }
  }

  /**
   For every document in which no schema comes back to itself on one instance: if all its schemas are well
   formed and faithful, validation accepts exactly the instances that the standard accepts, among those
   whose floats have a fraction.
   */
  lemma DocumentIsStandard(value: Json, root: Json, search: Search)
    requires Acyclic(StandardNodes(root), root) && Proper(value) && Fractional(value)
    requires forall s :: s in StandardNodes(root) ==> WellFormedNode(s, root, search) && FaithfulNode(s, root)
    ensures Wellfounded(root) && root in RankOf(root) && Ranked(RankOf(root), root)
    ensures var e := Ranking(root, search);
            && root in e.rank && Ranked(e.rank, root) && ExtraClosed(e.rank)
            && Check(value, root, Setting(root, search, RankOf(root))) == AcceptIf(StandardSatisfies(value, root, e))
  {
    hide Nodes, StandardNodes, Acyclic, Longest, WellFormedNode, FaithfulNode, Proper, Fractional, Check, Satisfies,
         StandardSatisfies, Ranked, Closed, Extra;
    StandardNodesClosed(root);
    NodesAreStandard(root);
    NodesClosed(root);
    AcyclicIsRanked(StandardNodes(root), root);
    AcyclicIsRanked(Nodes(root), root);
    var e, d := Ranking(root, search), Setting(root, search, RankOf(root));
    ReadingsAgree(value, root, e);
    RankIrrelevant(value, root, d, e);
    CheckMeaning(value, root, d);
  }
}
