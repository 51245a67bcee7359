/**
 Whether the base and the test merge that a decision proves are those that its receipt reports: exactly
 when the PR showed them at the moment the evaluation read it.  A PR that changes between the two
 discoveries and changes back gets a receipt for a base that was not proven.
 */
module DecisionBase {
  import opened Wrappers
  import opened Ordering
  import opened Pagination
  import opened Routing
  import opened Runs
  import opened GitHub
  import opened Evaluation
  import opened EvaluationConservation
  import opened EvaluationSoundness
  import opened SharedHead
  import opened Decision
  import opened DecisionSoundness
  import Sharding

  // ---------------------------------------------------------------- the exact condition

  /** The PR shows this base and this test merge at time `t`. */
  predicate Shows(env: Environment, t: nat, pr: nat, id: Identity) {
    && PullAt(env, t, pr).Ok?
    && BaseOf(PullAt(env, t, pr).value) == Ok(id.base) && PullAt(env, t, pr).value.merge == Some(id.merge)
  }

  /** The evidence is about this base and this test merge. */
  predicate Tied(e: Evidence, id: Identity) { e.base == id.base && e.pull.merge == Some(id.merge) }

  lemma EvidenceTied(env: Environment, from: nat, until: nat, c: Contract, a: Authority, pr: nat, head: string,
                     e: Evidence, id: Identity)
    requires Proves(env, from, until, c, a, pr, head, e)
    ensures from <= e.pullAt < until && (Tied(e, id) <==> Shows(env, e.pullAt, pr, id))
  {
    hide PullAt, BaseOf, ProvesScope, ProvesTrust, GateProven, Applicable, RunsAt;
  }

  /** Observations on this base and test merge show that the PR requires exactly these gates and passes them. */
  ghost predicate ProvenOn(env: Environment, from: nat, until: nat, c: Contract, a: Authority, pr: nat, head: string,
                           required: seq<string>, id: Identity) {
    exists e :: Proves(env, from, until, c, a, pr, head, e) && Required(c, e.changed) == Ok(required) && Tied(e, id)
  }

  /** The PR keeps its base and test merge whenever it can be read. */
  ghost predicate Unmoved(env: Environment, from: nat, until: nat, pr: nat, id: Identity) {
    forall t :: from <= t < until && PullAt(env, t, pr).Ok? ==> Shows(env, t, pr, id)
  }

  lemma ProvenSteady(env: Environment, from: nat, until: nat, c: Contract, a: Authority, pr: nat, head: string,
                     required: seq<string>, id: Identity)
    requires Proven(env, from, until, c, a, pr, head, required)
    requires Unmoved(env, from, until, pr, id)
    ensures ProvenOn(env, from, until, c, a, pr, head, required, id)
  {
    hide Required, Shows, Tied, PullAt, ProvesScope, ProvesTrust, GateProven, Applicable, RunsAt;
    var e :| Proves(env, from, until, c, a, pr, head, e) && Required(c, e.changed) == Ok(required);
    EvidenceTied(env, from, until, c, a, pr, head, e, id);
  }

  /** A success receipt for a PR that keeps its identity is proven, in both passes, on the base that it reports. */
  lemma ReceiptTied(env: Environment, start: nat, t0: nat, t1: nat, t2: nat, end: nat, c: Contract, a: Authority,
                    head: string, first: Shared, last: Shared, receipt: Receipt, i: nat)
    requires Justified(env, start, t0, t1, t2, end, c, a, head, first, last, receipt)
    requires receipt.state.Success? && i < |receipt.prs|
    requires receipt.prs[i].number in MainOnly(first).identity
    requires Unmoved(env, t0, t2, receipt.prs[i].number, MainOnly(first).identity[receipt.prs[i].number])
    ensures var pr := receipt.prs[i];
            var id := MainOnly(first).identity[pr.number];
            && pr.baseSha == id.base.sha
            && ProvenOn(env, t1, t2, c, a, pr.number, head, pr.required, id)
            && exists before :: ProvenOn(env, t0, t1, c, a, pr.number, head, before, id)
  {
    hide Proven, ProvenOn, Shows, MainOnly, Reported, Indexed;
    var pr := receipt.prs[i];
    var id := MainOnly(first).identity[pr.number];
    assert ProvenTwice(env, t0, t1, t2, c, a, pr.number, head, pr.required);
    ProvenSteady(env, t1, t2, c, a, pr.number, head, pr.required, id);
    var before :| Proven(env, t0, t1, c, a, pr.number, head, before);
    ProvenSteady(env, t0, t1, c, a, pr.number, head, before, id);
  }

  // ---------------------------------------------------------------- a PR that changes and changes back

  const GATE := Gate("tests", "ci.yml", "CI", true, [], [], AllSuccess)

  const CONTRACT := Contract(["tests"], [GATE])

  /** No gate definition is edited. */
  const FREE := Authority(_ => Ok([]), (_, _, _) => Ok(true), _ => Ok(false))

  /** What differs between two states of the PR. */
  datatype Place = Place(base: string, merge: string)

  predicate Proper(p: Place) { Sharding.IsSha(p.base) && Sharding.IsSha(p.merge) }

  function RunOn(head: string, p: Place): Run {
    Run(7, 1, 1, Some("ci.yml"), Some("pull_request"), Some(head), Some(TitlePrefix(GATE, 1) + p.merge),
        Some("completed"), Some("success"))
  }

  function PullOn(head: string, p: Place): PullRequest {
    PullRequest(Given("open"), Some(Head(Some(head), Some("topic"), Some(5))),
                Some(Base(Some("main"), Some(p.base), Some(5))), Some(p.merge), Some(0))
  }

  /** PR 1, without files, shown at one place and tested at another. */
  function Shown(head: string, at: Place, tested: Place): Snapshot {
    Snapshot(map[1 := PullOn(head, at)], map[],
             map[tested.merge := Commit(Some(tested.merge), [Some(tested.base), Some(head)])],
             map[head := [RunOn(head, tested)]], map[], map[head := [Association(Some("open"), Some(1))]])
  }

  function IdentityAt(p: Place): Identity { Identity(BaseIdentity("main", p.base, 5), "topic", 5, p.merge) }

  lemma ShortList<T>(env: Environment, t: nat, read: Snapshot -> seq<T>, files: bool)
    requires env.up(t + 1) && |read(env.world(t + 1))| < PAGE
    ensures Observed(env, t, read, files) == Ok(read(env.world(t + 1)))
  {
    hide Fetched;
    FetchedUnfold(ListServer(env, t, read), 1, files);
    var xs := read(env.world(t + 1));
    assert PageOf(xs, 1) == xs;
  }

  const ITEM := Association(Some("open"), Some(1))

  lemma OneAssociation(env: Environment, s: Session, head: string, at: Place, tested: Place)
    requires env.up(s.clock + 1) && env.world(s.clock + 1) == Shown(head, at, tested)
    ensures GetAssociations(env, s, head) == Reply(Ok([ITEM]), Tick(s, LIST))
  {
    hide Observed;
    ShortList(env, s.clock, (w: Snapshot) => SeqAt(w.associations, head), false);
  }

  lemma Inspected(head: string, at: Place)
    requires Proper(at)
    ensures Inspect(PullOn(head, at), head) == Ok(Some(IdentityAt(at)))
  {
    hide Sharding.IsSha;
  }

  lemma OneDiscovered(env: Environment, s: Session, head: string, at: Place, tested: Place)
    requires Proper(at) && env.up(s.clock) && env.world(s.clock) == Shown(head, at, tested)
    ensures Discover(env, s, [ITEM], head, Found([], map[])) ==
            Reply(Ok(Found([1], map[1 := IdentityAt(at)])), Tick(s, 1))
  {
    hide Inspect, PullOn, IdentityAt;
    Inspected(head, at);
    assert GetPull(env, s, 1) == Reply(Ok(PullOn(head, at)), Tick(s, 1));
    assert [ITEM][1..] == [];
    var found := Found([1], map[1 := IdentityAt(at)]);
    assert Add(Found([], map[]), 1, Some(IdentityAt(at))) == found;
    assert Discover(env, Tick(s, 1), [], head, found) == Reply(Ok(found), Tick(s, 1));
  }

  /** Discovery finds the PR where it is shown. */
  lemma Discovered(env: Environment, s: Session, head: string, at: Place, tested: Place)
    requires Proper(at) && (forall t :: env.up(t))
    requires env.world(s.clock + 1) == Shown(head, at, tested) && env.world(s.clock + LIST) == Shown(head, at, tested)
    ensures GetShared(env, s, head) == Reply(Ok(Shared([1], map[1 := IdentityAt(at)])), Tick(s, LIST + 1))
  {
    hide GetAssociations, Discover, IdentityAt, Shown, SortedSet;
    OneAssociation(env, s, head, at, tested);
    OneDiscovered(env, Tick(s, LIST), head, at, tested);
    OneNumber(1);
  }

  lemma OneNumber(n: nat)
    ensures SortedSet([n], NumberLess) == [n]
  {
    var none: seq<nat> := [];
    assert [n][..0] == none;
    assert SortedSet(none, NumberLess) == none;
  }

  lemma OneRequired()
    ensures Required(CONTRACT, []) == Ok(["tests"])
  {
    assert CONTRACT.gates[..0] == [] && CONTRACT.gates[1..] == [];
    assert Specialised(CONTRACT.gates[..0], []) == Ok({}) && Specialised(CONTRACT.gates, []) == Ok({});
    var ids := set id | id in CONTRACT.mandatoryIds;
    assert ids == {"tests"} && ids + {} == ids;
    assert InOrder([], ids) == [] && InOrder(CONTRACT.gates, ids) == ["tests"];
  }

  /** A session of a batch that has read nothing yet. */
  predicate Fresh(s: Session) { s.files == Some(map[]) && s.jobs == Some(map[]) }

  function Scanned(s: Session): Session { Tick(s, LIST + 1).(files := Some(map[1 := []])) }

  /** The world shows the PR at the tested place throughout. */
  ghost predicate Still(env: Environment, from: nat, until: nat, head: string, p: Place) {
    forall t :: from <= t < until ==> env.up(t) && env.world(t) == Shown(head, p, p)
  }

  lemma ScopeFound(env: Environment, s: Session, head: string, p: Place)
    requires Fresh(s) && Still(env, s.clock, s.clock + LIST + 1, head, p)
    ensures GetScope(env, s, CONTRACT, 1, head) == Reply(Ok(Scoped(PullOn(head, p), [], [], ["tests"])), Scanned(s))
  {
    hide Observed, Required, SortedSet;
    var s1 := Tick(s, 1);
    assert GetPull(env, s, 1) == Reply(Ok(PullOn(head, p)), s1);
    ShortList(env, s1.clock, (w: Snapshot) => SeqAt(w.files, 1), true);
    NoPaths();
    assert GetPaths(env, s1, 1, false) == Reply(Ok([]), Scanned(s));
    assert GetPaths(env, Scanned(s), 1, true) == Reply(Ok([]), Scanned(s));
    OneRequired();
  }

  lemma NoPaths()
    ensures PathsOf([], false) == Ok([]) && PathsOf([], true) == Ok([])
  {
    assert SortedSet([], StringLess) == [];
  }

  lemma MergeFound(env: Environment, s: Session, head: string, p: Place)
    requires Proper(p) && Still(env, s.clock, s.clock + 1, head, p)
    ensures GetTestMerge(env, s, PullOn(head, p), head) == Reply(Ok(p.merge), Tick(s, 1))
  {
    hide Sharding.IsSha;
    assert MergeCandidate(PullOn(head, p)) == Ok((p.base, p.merge));
  }

  lemma RunFound(head: string, p: Place)
    requires Proper(p)
    ensures Newest([RunOn(head, p)], Target(GATE, head, 1, p.merge)) == Some(RunOn(head, p))
  {
    hide Sharding.IsSha, TitlePrefix, Before;
    var run, t := RunOn(head, p), Target(GATE, head, 1, p.merge);
    var prefix := TitlePrefix(GATE, 1);
    assert (prefix + p.merge)[|prefix|..] == p.merge && prefix <= prefix + p.merge;
    WholePath();
    assert RunMatches(run, t);
    assert [run][1..] == [];
    assert Matching([], t) == [] && Matching([run], t) == [run];
  }

  lemma WholePath()
    ensures Before("ci.yml", '@') == "ci.yml"
  {
    assert "ci.yml"[1..] == "i.yml" && "i.yml"[1..] == ".yml" && ".yml"[1..] == "yml" && "yml"[1..] == "ml"
           && "ml"[1..] == "l";
    assert "l"[1..] == "" && Before("", '@') == "" && Before("l", '@') == "l" && Before("ml", '@') == "ml";
    assert Before("yml", '@') == "yml" && Before(".yml", '@') == ".yml" && Before("i.yml", '@') == "i.yml";
  }

  const ACCEPTED := Accepted("tests", "ci.yml", 7, 1, "all-success")

  function MatterOn(head: string, p: Place): Matter { Matter([GATE], FREE, 1, head, [], p.merge, [RunOn(head, p)]) }

  function Judged(s: Session): Session { Tick(s, LIST).(jobs := Some(map[(7, 1) := []])) }

  lemma GatePasses(env: Environment, s: Session, head: string, p: Place)
    requires s.jobs == Some(map[]) && Proper(p) && Still(env, s.clock, s.clock + 2, head, p)
    ensures Judge(env, s, MatterOn(head, p), GATE) == (Accept(ACCEPTED), Judged(s))
  {
    hide Observed, Newest, RunOn;
    RunFound(head, p);
    RunFields(head, p);
    ShortList(env, s.clock, (w: Snapshot) => SeqAt(w.jobs, 7), false);
    assert GetJobs(env, s, RunOn(head, p)) == Reply(Ok([]), Judged(s));
    NoJobs();
    assert !IsV09("tests");
  }

  lemma RunFields(head: string, p: Place)
    ensures var run := RunOn(head, p);
            run.id == 7 && run.runAttempt == 1 && run.status == Some("completed") && run.conclusion == Some("success")
  {
  }

  lemma NoJobs()
    ensures JobsVerdict([], GATE, FREE, []) == Ok("all-success")
  {
  }

  function Passed(head: string): Evaluation { Evaluation(1, head, [], ["tests"], [ACCEPTED], [], [], Success) }

  lemma LoopPasses(env: Environment, s: Session, head: string, p: Place)
    requires s.jobs == Some(map[]) && Proper(p) && Still(env, s.clock, s.clock + 2, head, p)
    ensures AllKnown([GATE], ["tests"])
    ensures JudgeAll(env, s, MatterOn(head, p), ["tests"]) == (Tally([ACCEPTED], [], []), Judged(s))
  {
    hide Judge, MatterOn;
    assert [GATE][0].id == "tests";
    GatePasses(env, s, head, p);
    MatterGates(head, p);
    var m := MatterOn(head, p);
    assert ["tests"][..0] == [] && JudgeAll(env, s, m, []) == (Tally([], [], []), s);
    assert GateOf([GATE], "tests") == GATE;
    assert Record(Tally([], [], []), "tests", Accept(ACCEPTED)) == Tally([ACCEPTED], [], []);
  }

  lemma MatterGates(head: string, p: Place)
    ensures MatterOn(head, p).gates == [GATE]
  {
  }

  function Done(s: Session): Session { Judged(Tick(Scanned(s), 1)) }

  const SPAN := LIST + LIST + 2

  lemma PrPasses(env: Environment, s: Session, head: string, p: Place)
    requires Fresh(s) && Proper(p) && Sharding.IsSha(head) && Still(env, s.clock, s.clock + SPAN, head, p)
    ensures Evaluate(env, s, CONTRACT, FREE, 1, head, Some([RunOn(head, p)])) == Reply(Ok(Passed(head)), Done(s))
  {
    hide GetScope, GetTestMerge, JudgeAll, Sharding.IsSha, RunOn, PullOn;
    ScopeFound(env, s, head, p);
    var s1 := Scanned(s);
    MergeFound(env, s1, head, p);
    LoopPasses(env, Tick(s1, 1), head, p);
  }

  lemma BatchPasses(env: Environment, s: Session, head: string, p: Place)
    requires Proper(p) && Sharding.IsSha(head) && Still(env, s.clock, s.clock + LIST + SPAN, head, p)
    ensures EvaluateBatch(env, s, CONTRACT, FREE, head, [1]) == Reply(Ok([Passed(head)]), Tick(s, LIST + SPAN))
  {
    hide Observed, Evaluate, Sharding.IsSha, RunOn;
    var open := OpenBatch(s);
    ShortList(env, open.clock, (w: Snapshot) => SeqAt(w.runs, head), false);
    var s1 := Tick(open, LIST);
    assert GetRuns(env, open, head) == Reply(Ok([RunOn(head, p)]), s1);
    PrPasses(env, s1, head, p);
    assert [1][1..] == [] && [Passed(head)] + [] == [Passed(head)];
    var none: seq<nat> := [];
    assert EvaluateEach(env, Done(s1), CONTRACT, FREE, head, Some([RunOn(head, p)]), none) == Reply(Ok([]), Done(s1));
  }

  /** When the first discovery ends, and when the second begins. */
  const OPENED := LIST + 1
  const CLOSING := OPENED + LIST + SPAN + LIST + SPAN

  /** At `reported` during both discoveries, and at `proven` in between. */
  function Swerving(head: string, reported: Place, proven: Place): Environment {
    Environment(t => Shown(head, if OPENED <= t < CLOSING then proven else reported, proven), t => true, t => Landed,
                t => false)
  }

  const START := Session(0, None, None)

  function ReceiptOn(head: string, p: Place): Receipt {
    Receipt(head, Success, [PrReceipt(1, head, "main", p.base, ["tests"], ["tests"])])
  }

  lemma TwicePasses(head: string, reported: Place, proven: Place)
    requires Sharding.IsSha(head) && Proper(proven)
    ensures EvaluateTwice(Swerving(head, reported, proven), Tick(START, OPENED), CONTRACT, FREE, head, [1]) ==
            Reply(Ok([Passed(head)]), Tick(START, CLOSING))
  {
    hide EvaluateBatch, Sharding.IsSha, Shown;
    var env, s := Swerving(head, reported, proven), Tick(START, OPENED);
    assert Still(env, OPENED, CLOSING, head, proven);
    BatchPasses(env, s, head, proven);
    BatchPasses(env, Tick(s, LIST + SPAN), head, proven);
    assert [Passed(head)][0].state.Success?;
  }

  /**
   For any two states of a PR that differ: a PR that shows the one to both discoveries and the other to both
   passes gets a success receipt for the base of the one, while all evidence is about the other.
   */
  lemma SwerveGetsReceipt(head: string, reported: Place, proven: Place)
    requires Sharding.IsSha(head) && Proper(reported) && Proper(proven) && reported != proven
    ensures var env := Swerving(head, reported, proven);
            && Loaded(CONTRACT) && Decide(env, START, CONTRACT, FREE, head).result == Ok(ReceiptOn(head, reported))
            && forall e :: Proves(env, OPENED, CLOSING, CONTRACT, FREE, 1, head, e) ==> !Tied(e, IdentityAt(reported))
  {
    hide GetShared, EvaluateTwice, Sharding.IsSha, Proves;
    var env := Swerving(head, reported, proven);
    Discovered(env, START, head, reported, proven);
    Discovered(env, Tick(START, CLOSING), head, reported, proven);
    TwicePasses(head, reported, proven);
    SelectedOne(reported);
    Receipted(head, reported);
    forall e | Proves(env, OPENED, CLOSING, CONTRACT, FREE, 1, head, e) ensures !Tied(e, IdentityAt(reported)) {
      EvidenceTied(env, OPENED, CLOSING, CONTRACT, FREE, 1, head, e, IdentityAt(reported));
      ShowsOther(head, reported, proven, e.pullAt);
    }
    assert CONTRACT.gates[0].id == "tests" && "tests" in CONTRACT.mandatoryIds;
  }

  lemma ShowsOther(head: string, reported: Place, proven: Place, t: nat)
    requires Proper(reported) && Proper(proven) && reported != proven && OPENED <= t < CLOSING
    ensures !Shows(Swerving(head, reported, proven), t, 1, IdentityAt(reported))
  {
    hide Sharding.IsSha;
    var env := Swerving(head, reported, proven);
    assert env.up(t) && env.world(t) == Shown(head, proven, proven);
    assert PullAt(env, t, 1) == Ok(PullOn(head, proven));
    assert BaseOf(PullOn(head, proven)) == Ok(IdentityAt(proven).base);
    assert reported.base != proven.base || reported.merge != proven.merge;
  }

  lemma SelectedOne(p: Place)
    ensures var shared := Shared([1], map[1 := IdentityAt(p)]); MainOnly(shared) == shared
  {
    var shared := Shared([1], map[1 := IdentityAt(p)]);
    assert shared.numbers[1..] == [] && MainNumbers(shared, []) == [] && MainNumbers(shared, shared.numbers) == [1];
  }

  lemma Receipted(head: string, p: Place)
    ensures var shared := Shared([1], map[1 := IdentityAt(p)]);
            && Receipts(CONTRACT, head, shared, [1], [Passed(head)]) == Ok(ReceiptOn(head, p).prs)
            && DecisionState([Passed(head)]) == Success
  {
    var shared := Shared([1], map[1 := IdentityAt(p)]);
    var none: seq<nat> := [];
    assert [1][1..] == none && [Passed(head)][1..] == [];
    assert AcceptedIds([ACCEPTED]) == ["tests"];
    assert Receipts(CONTRACT, head, shared, none, []) == Ok([]);
    assert ReceiptOn(head, p).prs + [] == ReceiptOn(head, p).prs;
  }
}
