/** The read-only decision for a head: two passes when green, the identities read again, and a receipt. */
module Decision {
  import opened Wrappers
  import opened Routing
  import opened GitHub
  import opened Evaluation
  import opened EvaluationConservation
  import opened SharedHead
  import Sharding

  // ---------------------------------------------------------------- the PRs that target main

  function MainNumbers(shared: Shared, numbers: seq<nat>): (r: seq<nat>) {
    if numbers == [] then []
    else
      (if numbers[0] in shared.identity && shared.identity[numbers[0]].base.branch == "main" then [numbers[0]] else [])
      + MainNumbers(shared, numbers[1..])
  }

  function MainOnly(shared: Shared): (r: Shared) {
    Shared(MainNumbers(shared, shared.numbers),
           map n | n in shared.identity && shared.identity[n].base.branch == "main" :: shared.identity[n])
  }

  lemma {:induction false} MainNumbersMembers(shared: Shared, numbers: seq<nat>, n: nat)
    ensures n in MainNumbers(shared, numbers) <==>
              n in numbers && n in shared.identity && shared.identity[n].base.branch == "main"
  {
    if numbers != [] { MainNumbersMembers(shared, numbers[1..], n); }
  }

  function GetSelected(env: Environment, s: Session, head: string): Reply<Shared> {
    var first := GetShared(env, s, head);
    match first.result
    case Err(e) => Reply(Err(e), first.s)
    case Ok(shared) =>
      var selected := MainOnly(shared);
      if selected.numbers == [] then Reply(Err("head has no open main-targeting PR"), first.s)
      else if |selected.numbers| > 8 then Reply(Err("shared decision head exceeds eight PRs"), first.s)
      else Reply(Ok(selected), first.s)
  }

  // ---------------------------------------------------------------- a pass with its own caches

  function OpenBatch(s: Session): Session { s.(files := Some(map[]), jobs := Some(map[])) }

  function CloseBatch(s: Session, outer: Session): Session { s.(files := outer.files, jobs := outer.jobs) }

  function EvaluateBatch(env: Environment, s: Session, c: Contract, a: Authority, head: string,
                         numbers: seq<nat>): Reply<seq<Evaluation>> {
    var runs := GetRuns(env, OpenBatch(s), head);
    match runs.result
    case Err(e) => Reply(Err(e), CloseBatch(runs.s, s))
    case Ok(list) =>
      var results := EvaluateEach(env, runs.s, c, a, head, Some(list), numbers);
      Reply(results.result, CloseBatch(results.s, s))
  }

  method EvaluateAll(client: Client, c: Contract, a: Authority, head: string, numbers: seq<nat>)
    returns (r: Result<seq<Evaluation>>)
    modifies client`clock, client`files, client`jobs
    ensures Reply(r, client.Now()) == EvaluateBatch(client.env, old(client.Now()), c, a, head, numbers)
  {
    hide EvaluateEach, RunsAt;
    var files, jobs := client.files, client.jobs;
    client.files, client.jobs := Some(map[]), Some(map[]);
    var runs := client.Runs(head);
    if runs.Err? {
      client.files, client.jobs := files, jobs;
      return Err(runs.error);
    }
    r := EvaluatePrs(client, c, a, head, Some(runs.value), numbers);
    client.files, client.jobs := files, jobs;
  }

  predicate AllGreen(results: seq<Evaluation>) { forall i :: 0 <= i < |results| ==> results[i].state.Success? }

  function EvaluateTwice(env: Environment, s: Session, c: Contract, a: Authority, head: string,
                         numbers: seq<nat>): Reply<seq<Evaluation>> {
    var once := EvaluateBatch(env, s, c, a, head, numbers);
    if once.result.Ok? && AllGreen(once.result.value) then EvaluateBatch(env, once.s, c, a, head, numbers) else once
  }

  // ---------------------------------------------------------------- the receipt

  datatype PrReceipt = PrReceipt(number: nat, head: string, baseRef: string, baseSha: string, required: seq<string>,
                                 accepted: seq<string>)

  datatype Receipt = Receipt(head: string, state: State, prs: seq<PrReceipt>)

  function ReceiptFor(c: Contract, head: string, number: nat, identity: Identity,
                      e: Evaluation): (r: Result<PrReceipt>) {
    var accepted := AcceptedIds(e.accepted);
    if e.pr != number || e.head != head then Err("malformed per-PR independent decision")
    else if e.required == [] || !Distinct(e.required) || !Covers(e.required, c.mandatoryIds)
    then Err("invalid independent gate receipt")
    else if !Distinct(accepted) || !Covers(e.required, accepted) || (e.state.Success? && !Covers(accepted, e.required))
    then Err("incomplete or ambiguous accepted gate receipt")
    else Ok(PrReceipt(number, head, identity.base.branch, identity.base.sha, e.required, accepted))
  }

  function Receipts(c: Contract, head: string, selected: Shared, numbers: seq<nat>,
                    results: seq<Evaluation>): (r: Result<seq<PrReceipt>>)
    requires forall n <- numbers :: n in selected.identity
    decreases |numbers|
  {
    if numbers == [] && results == [] then Ok([])
    else if numbers == [] || results == [] then Err("zip() arguments differ in length")
    else
      match ReceiptFor(c, head, numbers[0], selected.identity[numbers[0]], results[0])
      case Err(e) => Err(e)
      case Ok(first) => After([first], Receipts(c, head, selected, numbers[1..], results[1..]))
  }

  predicate Has(results: seq<Evaluation>, state: State) { exists i :: 0 <= i < |results| && results[i].state == state }

  function DecisionState(results: seq<Evaluation>): (s: State) {
    if Has(results, Failure) then Failure else if Has(results, Pending) then Pending else Success
  }

  ghost predicate Indexed(shared: Shared) { forall n :: n in shared.numbers <==> n in shared.identity }

  lemma MainIndexed(shared: Shared)
    requires Indexed(shared)
    ensures Indexed(MainOnly(shared))
    ensures forall n <- MainOnly(shared).identity :: MainOnly(shared).identity[n].base.branch == "main"
  {
    hide MainNumbers;
    forall n ensures n in MainOnly(shared).numbers <==> n in MainOnly(shared).identity {
      MainNumbersMembers(shared, shared.numbers, n);
    }
  }

  lemma SelectedIndexed(env: Environment, s: Session, head: string)
    ensures GetSelected(env, s, head).result.Ok? ==> Indexed(GetSelected(env, s, head).result.value)
  {
    hide GetShared, MainOnly;
    SharedMeans(env, s, head);
    var first := GetShared(env, s, head);
    if first.result.Ok? { ReportedIndexed(env, s.clock, first.s.clock, head, first.result.value); }
  }

  lemma ReportedIndexed(env: Environment, from: nat, until: nat, head: string, shared: Shared)
    requires Reported(env, from, until, head, shared)
    ensures Indexed(shared) && Indexed(MainOnly(shared))
  {
    hide Seen, Settled, AssociationsAt, MainOnly;
    MainIndexed(shared);
  }

  /** From the evaluations to the receipt, after the identities were read again. */
  function Conclude(env: Environment, s: Session, c: Contract, head: string, selected: Shared,
                    results: seq<Evaluation>): Reply<Receipt>
    requires forall n <- selected.numbers :: n in selected.identity
  {
    var again := GetShared(env, s, head);
    match again.result
    case Err(e) => Reply(Err(e), again.s)
    case Ok(shared) =>
      if MainOnly(shared) != selected then Reply(Err("PR identity changed during independent decision"), again.s)
      else
        match Receipts(c, head, selected, selected.numbers, results)
        case Err(e) => Reply(Err(e), again.s)
        case Ok(prs) => Reply(Ok(Receipt(head, DecisionState(results), prs)), again.s)
  }

  function Decide(env: Environment, s: Session, c: Contract, a: Authority, head: string): Reply<Receipt> {
    if !Sharding.IsSha(head) then Reply(Err("invalid decision head SHA"), s)
    else
      var selected := GetSelected(env, s, head);
      match selected.result
      case Err(e) => Reply(Err(e), selected.s)
      case Ok(shared) =>
        var results := EvaluateTwice(env, selected.s, c, a, head, shared.numbers);
        match results.result
        case Err(e) => Reply(Err(e), results.s)
        case Ok(list) =>
          SelectedIndexed(env, s, head);
          Conclude(env, results.s, c, head, shared, list)
  }

  method BuildReceipts(c: Contract, head: string, selected: Shared, results: seq<Evaluation>)
    returns (r: Result<seq<PrReceipt>>, states: seq<State>)
    requires forall n <- selected.numbers :: n in selected.identity
    ensures r == Receipts(c, head, selected, selected.numbers, results)
    ensures r.Ok? ==> |states| == |results| && forall i :: 0 <= i < |results| ==> states[i] == results[i].state
  {
    hide ReceiptFor;
    var prs: seq<PrReceipt> := [];
    states := [];
    var numbers := selected.numbers;
    var i := 0;
    assert numbers[0..] == numbers && results[0..] == results;
    ghost var all := Receipts(c, head, selected, numbers, results);
    AfterNothing(all);
    while i < |numbers| && i < |results|
      invariant i <= |numbers| && i <= |results| && |states| == i
      invariant forall k :: 0 <= k < i ==> states[k] == results[k].state
      invariant all == After(prs, Receipts(c, head, selected, numbers[i..], results[i..]))
    {
      assert numbers[i..][1..] == numbers[i + 1..] && results[i..][1..] == results[i + 1..];
      var first := ReceiptFor(c, head, numbers[i], selected.identity[numbers[i]], results[i]);
      if first.Err? { return Err(first.error), []; }
      AfterBoth(prs, [first.value], Receipts(c, head, selected, numbers[i + 1..], results[i + 1..]));
      prs, states, i := prs + [first.value], states + [results[i].state], i + 1;
    }
    assert prs + [] == prs;
    if i < |numbers| || i < |results| { return Err("zip() arguments differ in length"), []; }
    r := Ok(prs);
  }

  method DecisionHead(client: Client, c: Contract, a: Authority, head: string) returns (r: Result<Receipt>)
    modifies client`clock, client`files, client`jobs
    ensures Reply(r, client.Now()) == Decide(client.env, old(client.Now()), c, a, head)
  {
    hide GetShared, MainOnly, EvaluateBatch, AllGreen, Receipts, Indexed, Sharding.IsSha;
    if !Sharding.IsSha(head) { return Err("invalid decision head SHA"); }
    SelectedMembers(client.env, client.Now(), head);
    var first := OpenHeadPrs(client, head);
    if first.Err? { return Err(first.error); }
    var selected := MainOnly(first.value);
    if selected.numbers == [] { return Err("head has no open main-targeting PR"); }
    if |selected.numbers| > 8 { return Err("shared decision head exceeds eight PRs"); }
    var results := EvaluateAll(client, c, a, head, selected.numbers);
    if results.Err? { return Err(results.error); }
    if AllGreen(results.value) {
      results := EvaluateAll(client, c, a, head, selected.numbers);
      if results.Err? { return Err(results.error); }
    }
    var again := OpenHeadPrs(client, head);
    if again.Err? { return Err(again.error); }
    if MainOnly(again.value) != selected { return Err("PR identity changed during independent decision"); }
    var prs, states := BuildReceipts(c, head, selected, results.value);
    if prs.Err? { return Err(prs.error); }
    var state := if Failure in states then Failure else if Pending in states then Pending else Success;
    r := Ok(Receipt(head, state, prs.value));
  }

  lemma SelectedMembers(env: Environment, s: Session, head: string)
    ensures var r := GetSelected(env, s, head).result; r.Ok? ==> forall n <- r.value.numbers :: n in r.value.identity
  {
    hide GetSelected;
    SelectedIndexed(env, s, head);
  }
}
