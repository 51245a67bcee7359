/** What a receipt means, that its checks never reject an evaluation, and that both writers agree on the state. */
module DecisionSoundness {
  import opened Wrappers
  import opened Routing
  import opened GitHub
  import opened Evaluation
  import opened EvaluationConservation
  import opened EvaluationSoundness
  import opened SharedHead
  import opened Decision
  import Sharding

  // ---------------------------------------------------------------- the checks of the receipt

  lemma ReceiptAccepts(c: Contract, head: string, number: nat, identity: Identity, e: Evaluation)
    requires Conserved(e, c, number, head)
    ensures ReceiptFor(c, head, number, identity, e) ==
            Ok(PrReceipt(number, head, identity.base.branch, identity.base.sha, e.required, AcceptedIds(e.accepted)))
  {
    hide AcceptedIds, Distinct, ExactlyOne;
  }

  ghost predicate AllConserved(c: Contract, head: string, numbers: seq<nat>, results: seq<Evaluation>) {
    |results| == |numbers| && forall i :: 0 <= i < |numbers| ==> Conserved(results[i], c, numbers[i], head)
  }

  /** The checks of the receipt reject no list of evaluations, and copy each of them. */
  lemma {:induction false} ReceiptsAccept(c: Contract, head: string, selected: Shared, numbers: seq<nat>,
                                          results: seq<Evaluation>)
    requires (forall n <- numbers :: n in selected.identity) && AllConserved(c, head, numbers, results)
    ensures var r := Receipts(c, head, selected, numbers, results);
            r.Ok? && |r.value| == |numbers| && forall i :: 0 <= i < |numbers| ==>
                                                 && r.value[i].number == numbers[i] && r.value[i].head == head
                                                 && r.value[i].baseRef == selected.identity[numbers[i]].base.branch
                                                 && r.value[i].baseSha == selected.identity[numbers[i]].base.sha
                                                 && r.value[i].required == results[i].required
                                                 && r.value[i].accepted == AcceptedIds(results[i].accepted)
    decreases |numbers|
  {
    hide Conserved, AcceptedIds, ReceiptFor;
    if numbers != [] {
      assert AllConserved(c, head, numbers[1..], results[1..]);
      ReceiptAccepts(c, head, numbers[0], selected.identity[numbers[0]], results[0]);
      ReceiptsAccept(c, head, selected, numbers[1..], results[1..]);
    }
  }

  // ---------------------------------------------------------------- the aggregate of the reconciler

  function Tagged(pr: nat, notes: seq<Note>): seq<(nat, Note)> {
    seq(|notes|, i requires 0 <= i < |notes| => (pr, notes[i]))
  }

  function Failures(results: seq<Evaluation>): seq<(nat, Note)> {
    if results == [] then [] else Tagged(results[0].pr, results[0].failures) + Failures(results[1..])
  }

  function Waiting(results: seq<Evaluation>): seq<(nat, Note)> {
    if results == [] then [] else Tagged(results[0].pr, results[0].waiting) + Waiting(results[1..])
  }

  function AggregateState(results: seq<Evaluation>): State {
    if Failures(results) != [] then Failure else if Waiting(results) != [] then Pending else Success
  }

  lemma {:induction false} NotesExist(results: seq<Evaluation>)
    ensures Failures(results) == [] <==> forall i :: 0 <= i < |results| ==> results[i].failures == []
    ensures Waiting(results) == [] <==> forall i :: 0 <= i < |results| ==> results[i].waiting == []
  {
    if results != [] {
      NotesExist(results[1..]);
      assert forall i :: 1 <= i < |results| ==> results[i] == results[1..][i - 1];
      assert |Tagged(results[0].pr, results[0].failures)| == |results[0].failures|;
      assert |Tagged(results[0].pr, results[0].waiting)| == |results[0].waiting|;
    }
  }

  /** The aggregate over notes and the decision over states are the same state, on the same evaluations. */
  lemma StatesAgree(results: seq<Evaluation>)
    requires forall i :: 0 <= i < |results| ==> results[i].state == StateOf(results[i].failures, results[i].waiting)
    ensures AggregateState(results) == DecisionState(results)
    ensures DecisionState(results).Success? <==> AllGreen(results)
  {
    hide Failures, Waiting;
    NotesExist(results);
  }

  lemma ConservedStates(c: Contract, head: string, numbers: seq<nat>, results: seq<Evaluation>)
    requires AllConserved(c, head, numbers, results)
    ensures AggregateState(results) == DecisionState(results)
    ensures DecisionState(results).Success? <==> AllGreen(results)
  {
    hide AggregateState, DecisionState, AllGreen, AcceptedIds, ExactlyOne, Distinct;
    StatesAgree(results);
  }

  // ---------------------------------------------------------------- soundness of a receipt

  lemma BatchStartsEmpty(env: Environment, s: Session)
    ensures CachesObserved(env, s.clock, OpenBatch(s))
  {
  }

  lemma BatchSound(env: Environment, s: Session, c: Contract, a: Authority, head: string, numbers: seq<nat>)
    requires Loaded(c)
    ensures var r := EvaluateBatch(env, s, c, a, head, numbers);
            && s.clock <= r.s.clock && r.s.files == s.files && r.s.jobs == s.jobs
            && (r.result.Ok? ==> PassedOver(env, s.clock, r.s.clock, c, a, head, numbers, r.result.value))
  {
    hide CachesObserved, Loaded, EvaluateEach, RunsAt, PassedOver;
    BatchStartsEmpty(env, s);
    LaterTick(env, s.clock, OpenBatch(s), LIST);
    var runs := GetRuns(env, OpenBatch(s), head);
    if runs.result.Ok? {
      EachSound(env, s.clock, runs.s, c, a, head, Some(runs.result.value), s.clock, numbers);
      LaterClock(env, s.clock, runs.s, EvaluateEach(env, runs.s, c, a, head, Some(runs.result.value), numbers).s);
    }
  }

  lemma PassConserved(env: Environment, from: nat, until: nat, c: Contract, a: Authority, head: string,
                      numbers: seq<nat>, results: seq<Evaluation>)
    requires PassedOver(env, from, until, c, a, head, numbers, results)
    ensures AllConserved(c, head, numbers, results)
  {
    hide Conserved, Proven;
  }

  /** Both passes over a green head prove every PR, each from its own reads. */
  ghost predicate ProvenTwice(env: Environment, t0: nat, t1: nat, t2: nat, c: Contract, a: Authority, pr: nat,
                              head: string, required: seq<string>) {
    && Proven(env, t1, t2, c, a, pr, head, required)
    && exists before :: Proven(env, t0, t1, c, a, pr, head, before)
  }

  lemma TwiceSound(env: Environment, s: Session, c: Contract, a: Authority, head: string, numbers: seq<nat>)
    returns (t: nat)
    requires Loaded(c)
    ensures var r := EvaluateTwice(env, s, c, a, head, numbers);
            && s.clock <= t <= r.s.clock && r.s.files == s.files && r.s.jobs == s.jobs
            && (r.result.Ok? ==>
                  && AllConserved(c, head, numbers, r.result.value)
                  && (AllGreen(r.result.value) ==>
                        forall i :: 0 <= i < |numbers| ==>
                          ProvenTwice(env, s.clock, t, r.s.clock, c, a, numbers[i], head, r.result.value[i].required)))
  {
    hide Loaded, EvaluateBatch, Conserved, Proven, AllConserved;
    BatchSound(env, s, c, a, head, numbers);
    var once := EvaluateBatch(env, s, c, a, head, numbers);
    t := once.s.clock;
    if once.result.Ok? {
      PassConserved(env, s.clock, t, c, a, head, numbers, once.result.value);
      if AllGreen(once.result.value) {
        BatchSound(env, once.s, c, a, head, numbers);
        var twice := EvaluateBatch(env, once.s, c, a, head, numbers);
        if twice.result.Ok? {
          PassConserved(env, t, twice.s.clock, c, a, head, numbers, twice.result.value);
        }
      }
    }
  }

  /** Everything a receipt says about the head, with the times of the reads behind it. */
  ghost predicate Justified(env: Environment, start: nat, t0: nat, t1: nat, t2: nat, end: nat, c: Contract,
                            a: Authority, head: string, first: Shared, last: Shared, receipt: Receipt) {
    && start < t0 <= t1 <= t2 < end
    // the same main-targeting PRs, with the same identities, before and after
    && Reported(env, start, t0, head, first) && Reported(env, t2, end, head, last)
    && MainOnly(first) == MainOnly(last)
    && var selected := MainOnly(first);
       && 1 <= |selected.numbers| <= 8 && Indexed(selected)
       && receipt.head == head && |receipt.prs| == |selected.numbers|
       && forall i :: 0 <= i < |receipt.prs| ==>
            var pr := receipt.prs[i];
            && pr.number == selected.numbers[i] && pr.head == head
            && pr.baseRef == selected.identity[pr.number].base.branch
            && pr.baseSha == selected.identity[pr.number].base.sha
            && (receipt.state.Success? ==>
                  pr.accepted == pr.required && ProvenTwice(env, t0, t1, t2, c, a, pr.number, head, pr.required))
  }

  /**
   A receipt is sound end to end: GitHub showed the same PRs before and after, and a success means
   that two passes, each from its own reads, proved every applicable gate of every one of them.
   */
  lemma ReceiptIsSound(env: Environment, s: Session, c: Contract, a: Authority, head: string)
    returns (t0: nat, t1: nat, t2: nat, first: Shared, last: Shared)
    requires Loaded(c)
    ensures var r := Decide(env, s, c, a, head);
            r.result.Ok? ==> Justified(env, s.clock, t0, t1, t2, r.s.clock, c, a, head, first, last, r.result.value)
  {
    hide Loaded, GetShared, MainOnly, Reported, Indexed, EvaluateTwice, Receipts, ProvenTwice, AllConserved,
         DecisionState, Sharding.IsSha;
    t0, t1, t2, first, last := 0, 0, 0, Shared([], map[]), Shared([], map[]);
    if Decide(env, s, c, a, head).result.Ok? {
      var opening := GetShared(env, s, head);
      SharedMeans(env, s, head);
      SelectedIndexed(env, s, head);
      SelectedMembers(env, s, head);
      first := opening.result.value;
      var selected := MainOnly(first);
      t0 := opening.s.clock;
      t1 := TwiceSound(env, opening.s, c, a, head, selected.numbers);
      var results := EvaluateTwice(env, opening.s, c, a, head, selected.numbers);
      t2 := results.s.clock;
      SharedMeans(env, results.s, head);
      last := GetShared(env, results.s, head).result.value;
      ReceiptsAccept(c, head, selected, selected.numbers, results.result.value);
      ConservedStates(c, head, selected.numbers, results.result.value);
      var receipt := Decide(env, s, c, a, head).result.value;
      if receipt.state.Success? {
        forall i | 0 <= i < |receipt.prs| ensures receipt.prs[i].accepted == receipt.prs[i].required {
          AcceptedAll(c, head, selected.numbers, results.result.value, i);
        }
      }
    }
  }

  lemma AcceptedAll(c: Contract, head: string, numbers: seq<nat>, results: seq<Evaluation>, i: nat)
    requires AllConserved(c, head, numbers, results) && AllGreen(results) && i < |numbers|
    ensures AcceptedIds(results[i].accepted) == results[i].required
  {
    hide AcceptedIds, Distinct, ExactlyOne;
    assert Conserved(results[i], c, numbers[i], head);
  }

  /** The reads and evaluations of a decision return and the identities agree. */
  ghost predicate Undisturbed(env: Environment, s: Session, c: Contract, a: Authority, head: string) {
    && Sharding.IsSha(head) && GetSelected(env, s, head).result.Ok?
    && var selected := GetSelected(env, s, head);
       var results := EvaluateTwice(env, selected.s, c, a, head, selected.result.value.numbers);
       && results.result.Ok? && GetShared(env, results.s, head).result.Ok?
       && MainOnly(GetShared(env, results.s, head).result.value) == selected.result.value
  }

  /** A decision fails only because a read or an evaluation failed, or the PRs changed: never in its own checks. */
  lemma ChecksNeverReject(env: Environment, s: Session, c: Contract, a: Authority, head: string)
    requires Loaded(c)
    ensures Decide(env, s, c, a, head).result.Ok? <==> Undisturbed(env, s, c, a, head)
  {
    hide Loaded, GetShared, GetSelected, MainOnly, Indexed, EvaluateTwice, Receipts, ProvenTwice, AllConserved,
         DecisionState, Sharding.IsSha;
    SelectedIndexed(env, s, head);
    SelectedMembers(env, s, head);
    if Undisturbed(env, s, c, a, head) {
      var selected := GetSelected(env, s, head);
      var t := TwiceSound(env, selected.s, c, a, head, selected.result.value.numbers);
      var results := EvaluateTwice(env, selected.s, c, a, head, selected.result.value.numbers);
      ReceiptsAccept(c, head, selected.result.value, selected.result.value.numbers, results.result.value);
    }
  }
}
