/** When nothing changes on GitHub, the guarded writers compute exactly what one plain look would. */
module QuietWorld {
  import opened Wrappers
  import opened Ordering
  import opened Routing
  import opened Runs
  import opened GitHub
  import opened Evaluation
  import opened EvaluationBatch
  import opened SharedHead
  import opened Decision
  import opened DecisionSoundness
  import opened Reconcile
  import Sharding

  // ---------------------------------------------------------------- a plain look

  /** Every PR evaluated from the same state, without caches or a shared run list. */
  function PlainEach(env: Environment, s: Session, c: Contract, a: Authority, head: string,
                     numbers: seq<nat>): (r: Result<seq<Evaluation>>) {
    if numbers == [] then Ok([])
    else
      match Evaluate(env, s, c, a, numbers[0], head, None).result
      case Err(e) => Err(e)
      case Ok(first) => After([first], PlainEach(env, s, c, a, head, numbers[1..]))
  }

  function PlainDecision(env: Environment, s: Session, c: Contract, a: Authority, head: string): (r: Result<Receipt>) {
    if !Sharding.IsSha(head) then Err("invalid decision head SHA")
    else
      match GetSelected(env, s, head).result
      case Err(e) => Err(e)
      case Ok(selected) =>
        match PlainEach(env, s, c, a, head, selected.numbers)
        case Err(e) => Err(e)
        case Ok(results) =>
          SelectedMembers(env, s, head);
          match Receipts(c, head, selected, selected.numbers, results)
          case Err(e) => Err(e)
          case Ok(prs) => Ok(Receipt(head, DecisionState(results), prs))
  }

  // ---------------------------------------------------------------- reads

  lemma AssociationsFrozen(env: Environment, w: Snapshot, t: nat, t': nat, head: string)
    requires Frozen(env, w)
    ensures AssociationsAt(env, t, head) == AssociationsAt(env, t', head)
  {
    hide Frozen, Observed;
    ObservedFrozen(env, w, t, (w: Snapshot) => SeqAt(w.associations, head), false);
    ObservedFrozen(env, w, t', (w: Snapshot) => SeqAt(w.associations, head), false);
  }

  lemma {:induction false} DiscoverFrozen(env: Environment, w: Snapshot, s: Session, s': Session,
                                          list: seq<Association>, head: string, found: Found)
    requires Frozen(env, w)
    ensures Discover(env, s, list, head, found).result == Discover(env, s', list, head, found).result
    decreases |list|
  {
    hide Inspect;
    if list != [] {
      DiscoverFrozen(env, w, s, s', list[1..], head, found);
      if list[0].number.Some? && list[0].number.value > 0 {
        var number: nat := list[0].number.value;
        var p, p' := GetPull(env, s, number), GetPull(env, s', number);
        assert p.result == p'.result;
        if p.result.Ok? && Inspect(p.result.value, head).Ok? {
          DiscoverFrozen(env, w, p.s, p'.s, list[1..], head, Add(found, number, Inspect(p.result.value, head).value));
        }
      }
    }
  }

  lemma SharedFrozen(env: Environment, w: Snapshot, s: Session, s': Session, head: string)
    requires Frozen(env, w)
    ensures GetShared(env, s, head).result == GetShared(env, s', head).result
  {
    hide Frozen, AssociationsAt, Discover, SortedSet;
    AssociationsFrozen(env, w, s.clock, s'.clock, head);
    var list, list' := GetAssociations(env, s, head), GetAssociations(env, s', head);
    if list.result.Ok? { DiscoverFrozen(env, w, list.s, list'.s, list.result.value, head, Found([], map[])); }
  }

  lemma {:induction false} EachIsPlain(env: Environment, w: Snapshot, s: Session, plain: Session, c: Contract,
                                       a: Authority, head: string, snapshot: Option<seq<Run>>, numbers: seq<nat>)
    requires Frozen(env, w) && FrozenAuthority(a) && Twins(env, s, plain) && RunListOf(w, head, snapshot)
    ensures EvaluateEach(env, s, c, a, head, snapshot, numbers).result == PlainEach(env, plain, c, a, head, numbers)
    decreases |numbers|
  {
    hide Frozen, FrozenAuthority, CachesObserved, RunsIn, Evaluate;
    if numbers != [] {
      CachesAgree(env, w, s, plain, c, a, numbers[0], head, snapshot, None);
      var first := Evaluate(env, s, c, a, numbers[0], head, snapshot);
      EachIsPlain(env, w, first.s, plain, c, a, head, snapshot, numbers[1..]);
    }
  }

  lemma FreshCaches(env: Environment, start: nat, s: Session)
    requires s.files.None? && s.jobs.None?
    ensures CachesObserved(env, start, s) && CachesObserved(env, start, OpenBatch(s))
    ensures CachesObserved(env, start, Tick(OpenBatch(s), LIST))
  {
  }

  // ---------------------------------------------------------------- the decision

  lemma BatchIsPlain(env: Environment, w: Snapshot, s: Session, plain: Session, c: Contract, a: Authority, head: string,
                     numbers: seq<nat>)
    requires Frozen(env, w) && FrozenAuthority(a) && RunsIn(w, head).Ok?
    requires s.files.None? && s.jobs.None? && plain.files.None? && plain.jobs.None?
    ensures var r := EvaluateBatch(env, s, c, a, head, numbers);
            r.result == PlainEach(env, plain, c, a, head, numbers) && r.s.files.None? && r.s.jobs.None?
  {
    hide Frozen, FrozenAuthority, CachesObserved, RunsIn, EvaluateEach, PlainEach, RunsAt;
    FreshCaches(env, 0, s);
    FreshCaches(env, 0, plain);
    RunsAtFrozen(env, w, s.clock, head);
    var runs := GetRuns(env, OpenBatch(s), head);
    EachIsPlain(env, w, runs.s, plain, c, a, head, Some(runs.result.value), numbers);
  }

  lemma TwiceIsPlain(env: Environment, w: Snapshot, s: Session, plain: Session, c: Contract, a: Authority, head: string,
                     numbers: seq<nat>)
    requires Frozen(env, w) && FrozenAuthority(a) && RunsIn(w, head).Ok?
    requires s.files.None? && s.jobs.None? && plain.files.None? && plain.jobs.None?
    ensures EvaluateTwice(env, s, c, a, head, numbers).result == PlainEach(env, plain, c, a, head, numbers)
  {
    hide Frozen, FrozenAuthority, EvaluateBatch, PlainEach, RunsIn;
    BatchIsPlain(env, w, s, plain, c, a, head, numbers);
    BatchIsPlain(env, w, EvaluateBatch(env, s, c, a, head, numbers).s, plain, c, a, head, numbers);
  }

  /**
   On a frozen world the second pass, the caches, the shared run list and the second discovery change
   nothing: the decision is the plain one.
   */
  lemma DecisionIsPlain(env: Environment, w: Snapshot, s: Session, c: Contract, a: Authority, head: string)
    requires Frozen(env, w) && FrozenAuthority(a) && RunsIn(w, head).Ok? && s.files.None? && s.jobs.None?
    ensures Decide(env, s, c, a, head).result == PlainDecision(env, s, c, a, head)
  {
    hide Frozen, FrozenAuthority, GetShared, MainOnly, EvaluateTwice, PlainEach, Receipts, DecisionState, RunsIn,
         Sharding.IsSha;
    SharedMeans(env, s, head);
    SelectedMembers(env, s, head);
    SelectedIndexed(env, s, head);
    var selected := GetSelected(env, s, head);
    if selected.result.Ok? {
      TwiceIsPlain(env, w, selected.s, s, c, a, head, selected.result.value.numbers);
      SharedFrozen(env, w, s, EvaluateTwice(env, selected.s, c, a, head, selected.result.value.numbers).s, head);
    }
  }

  // ---------------------------------------------------------------- the reconciler

  /** What a plain look would publish for the head. */
  function PlainOutcome(env: Environment, s: Session, c: Contract, a: Authority, head: string): (r: Result<Outcome>) {
    if !Sharding.IsSha(head) then Err("invalid head SHA")
    else
      match GetShared(env, s, head).result
      case Err(e) => Err(e)
      case Ok(shared) =>
        if shared.numbers == [] then Ok(NoOpenPr)
        else if |shared.numbers| > 8 then Ok(Published(Failure))
        else
          match PlainEach(env, s, c, a, head, shared.numbers)
          case Err(e) => Err(e)
          case Ok(results) => Ok(Published(AggregateState(results)))
  }

  ghost predicate PostsLand(env: Environment) { forall t :: env.posting(t).Landed? }

  lemma InspectIsPlain(env: Environment, w: Snapshot, s: Session, plain: Session, c: Contract, a: Authority,
                       head: string, numbers: seq<nat>)
    requires Frozen(env, w) && FrozenAuthority(a) && Loaded(c)
    requires s.files.None? && s.jobs.None? && plain.files.None? && plain.jobs.None?
    ensures InspectTwice(env, s, c, a, head, numbers).result == PlainEach(env, plain, c, a, head, numbers)
  {
    hide Frozen, FrozenAuthority, CachesObserved, EvaluateEach, PlainEach, AggregateState, Loaded, PassedOver, RunsAt;
    FreshCaches(env, s.clock, s);
    FreshCaches(env, 0, s);
    FreshCaches(env, 0, plain);
    EachIsPlain(env, w, s, plain, c, a, head, None, numbers);
    EachSound(env, s.clock, s, c, a, head, None, 0, numbers);
    var once := EvaluateEach(env, s, c, a, head, None, numbers);
    FreshCaches(env, 0, once.s);
    EachIsPlain(env, w, once.s, plain, c, a, head, None, numbers);
  }

  lemma StillSameFrozen(env: Environment, w: Snapshot, s: Session, s': Session, head: string, green: bool)
    requires Frozen(env, w) && GetShared(env, s', head).result.Ok?
    ensures StillSame(env, s, head, GetShared(env, s', head).result.value, green).result == Ok(true)
  {
    hide Frozen, GetShared;
    SharedFrozen(env, w, s, s', head);
    SharedFrozen(env, w, GetShared(env, s, head).s, s', head);
  }

  /** On a frozen world where posts land, a run publishes exactly the plain outcome: success whenever it is due. */
  lemma RunIsPlain(env: Environment, w: Snapshot, wr: Writer, c: Contract, a: Authority, head: string)
    requires Frozen(env, w) && FrozenAuthority(a) && PostsLand(env) && Loaded(c) && wr.s.files.None? && wr.s.jobs.None?
    ensures ReconcileOne(env, wr, c, a, head).result == PlainOutcome(env, wr.s, c, a, head)
  {
    hide Frozen, FrozenAuthority, GetShared, InspectTwice, StillSame, PlainEach, AggregateState, Loaded, Sharding.IsSha;
    var w1 := Publish(env, wr, head, Pending).1;
    SharedFrozen(env, w, w1.s, wr.s, head);
    SharedMeans(env, w1.s, head);
    var identities := GetShared(env, w1.s, head);
    if identities.result.Ok? {
      var shared := identities.result.value;
      InspectIsPlain(env, w, identities.s, wr.s, c, a, head, shared.numbers);
      var results := InspectTwice(env, identities.s, c, a, head, shared.numbers);
      if results.result.Ok? {
        StillSameFrozen(env, w, results.s, w1.s, head, AggregateState(results.result.value).Success?);
      }
    }
  }
}
