/** Every required gate gets exactly one verdict, and success means that all were accepted. */
module EvaluationConservation {
  import opened Wrappers
  import opened Routing
  import opened Runs
  import opened GitHub
  import opened Evaluation

  function AcceptedIds(records: seq<Accepted>): (ids: seq<string>) {
    seq(|records|, i requires 0 <= i < |records| => records[i].gate)
  }

  function NoteIds(notes: seq<Note>): (ids: seq<string>) {
    seq(|notes|, i requires 0 <= i < |notes| => if notes[i].OnGate? then notes[i].gate else "")
  }

  datatype Kind = Taken | Waited | Failed

  /** The ids, in order, whose verdict is of the given kind. */
  function Pick(ids: seq<string>, kinds: seq<Kind>, k: Kind): (r: seq<string>)
    requires |ids| == |kinds|
    decreases |ids|
  {
    if ids == [] then []
    else
      var n := |ids| - 1;
      Pick(ids[..n], kinds[..n], k) + (if kinds[n] == k then [ids[n]] else [])
  }

  /** The three lists of a tally are the ids sorted by one kind each. */
  ghost predicate Partitions(t: Tally, ids: seq<string>, kinds: seq<Kind>) {
    && |kinds| == |ids|
    && AcceptedIds(t.accepted) == Pick(ids, kinds, Taken)
    && NoteIds(t.waiting) == Pick(ids, kinds, Waited)
    && NoteIds(t.failures) == Pick(ids, kinds, Failed)
  }

  function KindOf(v: Verdict): Kind {
    match v case Accept(_) => Taken case Wait(_) => Waited case Fail(_) => Failed
  }

  lemma PickStep(ids: seq<string>, kinds: seq<Kind>, id: string, kind: Kind, k: Kind)
    requires |ids| == |kinds|
    ensures Pick(ids + [id], kinds + [kind], k) == Pick(ids, kinds, k) + (if kind == k then [id] else [])
  {
    assert (ids + [id])[..|ids|] == ids && (kinds + [kind])[..|kinds|] == kinds;
  }

  lemma JudgeNames(env: Environment, s: Session, m: Matter, gate: Gate)
    ensures var v := Judge(env, s, m, gate).0; v.Accept? ==> v.record.gate == gate.id
  {
    hide Newest, HasStaleRun, SupportedConclusion, GetJobPaths, GetJobsVerdict;
  }

  lemma {:induction false} LoopPartitions(env: Environment, s: Session, m: Matter, ids: seq<string>)
    returns (kinds: seq<Kind>)
    requires AllKnown(m.gates, ids)
    ensures Partitions(JudgeAll(env, s, m, ids).0, ids, kinds)
    decreases |ids|
  {
    hide Judge, Known;
    if ids == [] {
      kinds := [];
    } else {
      var n := |ids| - 1;
      var before := LoopPartitions(env, s, m, ids[..n]);
      var (t, s1) := JudgeAll(env, s, m, ids[..n]);
      var gate := GateOf(m.gates, ids[n]);
      var v := Judge(env, s1, m, gate).0;
      JudgeNames(env, s1, m, gate);
      kinds := before + [KindOf(v)];
      assert ids == ids[..n] + [ids[n]];
      PickStep(ids[..n], before, ids[n], KindOf(v), Taken);
      PickStep(ids[..n], before, ids[n], KindOf(v), Waited);
      PickStep(ids[..n], before, ids[n], KindOf(v), Failed);
      RecordIds(t, ids[n], v);
    }
  }

  lemma RecordIds(t: Tally, id: string, v: Verdict)
    requires v.Accept? ==> v.record.gate == id
    ensures var r := Record(t, id, v);
            && AcceptedIds(r.accepted) == AcceptedIds(t.accepted) + (if v.Accept? then [id] else [])
            && NoteIds(r.waiting) == NoteIds(t.waiting) + (if v.Wait? then [id] else [])
            && NoteIds(r.failures) == NoteIds(t.failures) + (if v.Fail? then [id] else [])
  {
  }

  lemma {:induction false} PickLengths(ids: seq<string>, kinds: seq<Kind>)
    requires |ids| == |kinds|
    ensures |Pick(ids, kinds, Taken)| + |Pick(ids, kinds, Waited)| + |Pick(ids, kinds, Failed)| == |ids|
    ensures |Pick(ids, kinds, Taken)| == |ids| ==> Pick(ids, kinds, Taken) == ids
    decreases |ids|
  {
    if ids != [] {
      var n := |ids| - 1;
      PickLengths(ids[..n], kinds[..n]);
      assert ids == ids[..n] + [ids[n]];
    }
  }

  lemma {:induction false} PickMember(ids: seq<string>, kinds: seq<Kind>, k: Kind, id: string)
    requires |ids| == |kinds|
    ensures id in Pick(ids, kinds, k) <==> exists i :: 0 <= i < |ids| && ids[i] == id && kinds[i] == k
    decreases |ids|
  {
    if ids != [] {
      var n := |ids| - 1;
      PickMember(ids[..n], kinds[..n], k, id);
      if i :| 0 <= i < n && ids[..n][i] == id && kinds[..n][i] == k { assert ids[i] == id && kinds[i] == k; }
      if i :| 0 <= i < |ids| && ids[i] == id && kinds[i] == k {
        assert i < n ==> ids[..n][i] == id && kinds[..n][i] == k;
      }
    }
  }

  lemma {:induction false} PickDistinct(ids: seq<string>, kinds: seq<Kind>, k: Kind)
    requires |ids| == |kinds| && Distinct(ids)
    ensures Distinct(Pick(ids, kinds, k))
    decreases |ids|
  {
    if ids != [] {
      var n := |ids| - 1;
      PickDistinct(ids[..n], kinds[..n], k);
      PickMember(ids[..n], kinds[..n], k, ids[n]);
    }
  }

  /** Of distinct ids, each is in exactly one of the three lists. */
  ghost predicate ExactlyOne(t: Tally, id: string) {
    var a, w, f := id in AcceptedIds(t.accepted), id in NoteIds(t.waiting), id in NoteIds(t.failures);
    (a || w || f) && !(a && w) && !(a && f) && !(w && f)
  }

  lemma PartitionExact(t: Tally, ids: seq<string>, kinds: seq<Kind>, i: nat)
    requires Partitions(t, ids, kinds) && Distinct(ids) && i < |ids|
    ensures ExactlyOne(t, ids[i])
  {
    hide Pick, AcceptedIds, NoteIds;
    PickMember(ids, kinds, Taken, ids[i]);
    PickMember(ids, kinds, Waited, ids[i]);
    PickMember(ids, kinds, Failed, ids[i]);
    assert forall j :: 0 <= j < |ids| && ids[j] == ids[i] ==> j == i;
  }

  /** Nothing waits and nothing failed exactly when the accepted ids are all the ids, in order. */
  lemma PartitionSuccess(t: Tally, ids: seq<string>, kinds: seq<Kind>)
    requires Partitions(t, ids, kinds)
    ensures StateOf(t.failures, t.waiting).Success? <==> AcceptedIds(t.accepted) == ids
  {
    hide Pick;
    PickLengths(ids, kinds);
    assert |AcceptedIds(t.accepted)| + |t.waiting| + |t.failures| == |ids|;
  }

  /** What every evaluation that returns satisfies; the receipt of a decision checks no more. */
  ghost predicate Conserved(e: Evaluation, c: Contract, pr: nat, head: string) {
    && e.pr == pr && e.head == head
    && e.required != [] && Distinct(e.required)
    && (forall id <- c.mandatoryIds :: id in e.required)
    && Distinct(AcceptedIds(e.accepted))
    && (forall id <- AcceptedIds(e.accepted) :: id in e.required)
    && (e.state.Success? <==> AcceptedIds(e.accepted) == e.required)
    && e.state == StateOf(e.failures, e.waiting)
    && (|| (e.accepted == [] && e.waiting == [] && |e.failures| == 1 && e.failures[0].OnPr?)
        || forall id <- e.required :: ExactlyOne(Tally(e.accepted, e.waiting, e.failures), id))
  }

  lemma RequiredConserves(c: Contract, paths: seq<string>)
    requires Loaded(c) && Required(c, paths).Ok?
    ensures var ids := Required(c, paths).value;
            ids != [] && Distinct(ids) && forall id <- c.mandatoryIds :: id in ids
  {
    hide Required, Selected;
    RequiredMeans(c, paths);
    var ids := Required(c, paths).value;
    forall id | id in c.mandatoryIds ensures id in ids {
      var i :| 0 <= i < |c.gates| && c.gates[i].id == id;
      assert Applicable(c.gates[i], c, paths);
    }
    assert c.mandatoryIds[0] in ids;
  }

  lemma VerdictsConserve(env: Environment, s: Session, m: Matter, c: Contract, required: seq<string>)
    requires AllKnown(m.gates, required)
    requires required != [] && Distinct(required) && forall id <- c.mandatoryIds :: id in required
    ensures Conserved(Verdicts(env, s, m, required).result.value, c, m.pr, m.head)
  {
    hide JudgeAll, Pick, AcceptedIds, NoteIds, AllKnown, ExactlyOne;
    var t := JudgeAll(env, s, m, required).0;
    var kinds := LoopPartitions(env, s, m, required);
    PartitionSuccess(t, required, kinds);
    PickDistinct(required, kinds, Taken);
    forall id | id in AcceptedIds(t.accepted) ensures id in required { PickMember(required, kinds, Taken, id); }
    forall id | id in required ensures ExactlyOne(t, id) {
      var i :| 0 <= i < |required| && required[i] == id;
      PartitionExact(t, required, kinds, i);
    }
  }

  lemma RefusalConserves(c: Contract, pr: nat, head: string, changed: seq<string>, required: seq<string>, text: string)
    requires required != [] && Distinct(required) && forall id <- c.mandatoryIds :: id in required
    ensures Conserved(Refusal(pr, head, changed, required, text), c, pr, head)
  {
  }

  /** The scope of a PR refuses only with a conserved evaluation, and otherwise requires what routing requires. */
  lemma ScopeConserves(env: Environment, s: Session, c: Contract, pr: nat, head: string)
    requires Loaded(c)
    ensures var scope := GetScope(env, s, c, pr, head).result;
            scope.Ok? ==>
              if scope.value.Refused? then Conserved(scope.value.e, c, pr, head) && scope.value.e.state.Failure?
              else
                && scope.value.required != [] && Distinct(scope.value.required)
                && forall id <- c.mandatoryIds :: id in scope.value.required
  {
    hide Conserved, Required, GetPaths, Covers;
    var scope := GetScope(env, s, c, pr, head).result;
    if scope.Ok? {
      if scope.value.Refused? {
        var e := scope.value.e;
        if e.required != c.mandatoryIds { RequiredConserves(c, e.changed); }
        RefusalConserves(c, pr, head, e.changed, e.required, e.failures[0].text);
      } else {
        RequiredConserves(c, scope.value.changed);
      }
    }
  }

  /** Conservation: whatever GitHub does meanwhile, an evaluation that returns satisfies every receipt check. */
  lemma EvaluationConserves(env: Environment, s: Session, c: Contract, a: Authority, pr: nat, head: string,
                            snapshot: Option<seq<Run>>)
    requires Loaded(c)
    ensures var r := Evaluate(env, s, c, a, pr, head, snapshot).result; r.Ok? ==> Conserved(r.value, c, pr, head)
  {
    hide Conserved, GetScope, GetTestMerge, GetTrusted, RunsFor, Loaded, AllKnown, Verdicts;
    ScopeConserves(env, s, c, pr, head);
    RequiredKnown(env, s, c, pr, head);
    var scope := GetScope(env, s, c, pr, head);
    if Evaluate(env, s, c, a, pr, head, snapshot).result.Ok? && scope.result.value.Scoped? {
      var Scoped(pull, changed, original, required) := scope.result.value;
      var trusted := GetTrusted(scope.s, a, pr, original);
      if !trusted.result.value {
        RefusalConserves(c, pr, head, changed, required, "PR changes executable qualification authority");
      } else {
        var merge := GetTestMerge(env, trusted.s, pull, head);
        var runs := RunsFor(env, merge.s, head, snapshot);
        VerdictsConserve(env, runs.s, Matter(c.gates, a, pr, head, changed, merge.result.value, runs.result.value), c,
                         required);
      }
    }
  }
}
