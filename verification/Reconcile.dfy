/** The status writer: one run for a head, and one run for a shard of heads. */
module Reconcile {
  import opened Wrappers
  import opened Routing
  import opened GitHub
  import opened Evaluation
  import opened SharedHead
  import opened DecisionSoundness
  import Sharding

  // ---------------------------------------------------------------- one head

  datatype Outcome = Published(state: State) | NoOpenPr | StaleIdentity

  datatype Exit = Exit(result: Result<Outcome>, w: Writer)

  function PublishFinal(env: Environment, w: Writer, head: string, state: State): Exit {
    var (raised, w1) := Publish(env, w, head, state);
    Exit(if raised then Err("GitHub API unavailable") else Ok(Published(state)), w1)
  }

  /** Two inspections when the first is green. */
  function InspectTwice(env: Environment, s: Session, c: Contract, a: Authority, head: string,
                        numbers: seq<nat>): Reply<seq<Evaluation>> {
    var once := EvaluateEach(env, s, c, a, head, None, numbers);
    if once.result.Ok? && AggregateState(once.result.value).Success?
    then EvaluateEach(env, once.s, c, a, head, None, numbers)
    else once
  }

  /** Whether the identities are still the same, read twice when the inspection is green. */
  function StillSame(env: Environment, s: Session, head: string, identities: Shared, green: bool): Reply<bool> {
    var latest := GetShared(env, s, head);
    match latest.result
    case Err(e) => Reply(Err(e), latest.s)
    case Ok(shared) =>
      if shared != identities then Reply(Ok(false), latest.s)
      else if !green then Reply(Ok(true), latest.s)
      else
        var again := GetShared(env, latest.s, head);
        match again.result
        case Err(e) => Reply(Err(e), again.s)
        case Ok(last) => Reply(Ok(last == identities), again.s)
  }

  /** From the identities to the final post. */
  function Settle(env: Environment, w: Writer, c: Contract, a: Authority, head: string, identities: Shared): Exit {
    var results := InspectTwice(env, w.s, c, a, head, identities.numbers);
    match results.result
    case Err(e) => Exit(Err(e), Writer(results.s, w.log))
    case Ok(list) =>
      var state := AggregateState(list);
      var same := StillSame(env, results.s, head, identities, state.Success?);
      match same.result
      case Err(e) => Exit(Err(e), Writer(same.s, w.log))
      case Ok(steady) =>
        if steady then PublishFinal(env, Writer(same.s, w.log), head, state)
        else Exit(Ok(StaleIdentity), Writer(same.s, w.log))
  }

  function ReconcileOne(env: Environment, w: Writer, c: Contract, a: Authority, head: string): Exit {
    if !Sharding.IsSha(head) then Exit(Err("invalid head SHA"), w)
    else
      var (raised, w1) := Publish(env, w, head, Pending);
      if raised then Exit(Err("GitHub API unavailable"), w1)
      else
        var identities := GetShared(env, w1.s, head);
        match identities.result
        case Err(e) => Exit(Err(e), Writer(identities.s, w1.log))
        case Ok(shared) =>
          var w2 := Writer(identities.s, w1.log);
          if shared.numbers == [] then Exit(Ok(NoOpenPr), w2)
          else if |shared.numbers| > 8 then PublishFinal(env, w2, head, Failure)
          else Settle(env, w2, c, a, head, shared)
  }

  method Aggregate(results: seq<Evaluation>) returns (state: State)
    ensures state == AggregateState(results)
  {
    hide Failures, Waiting;
    var problems, waiting := Failures(results), Waiting(results);
    state := if problems != [] then Failure else if waiting != [] then Pending else Success;
  }

  method ReconcileHead(client: Client, c: Contract, a: Authority, head: string) returns (r: Result<Outcome>)
    modifies client
    ensures Exit(r, client.Written()) == ReconcileOne(client.env, old(client.Written()), c, a, head)
  {
    hide GetShared, EvaluateEach, AggregateState, Sharding.IsSha;
    if !Sharding.IsSha(head) { return Err("invalid head SHA"); }
    var raised := client.PostStatus(head, Pending);
    if raised { return Err("GitHub API unavailable"); }
    var identities := OpenHeadPrs(client, head);
    if identities.Err? { return Err(identities.error); }
    var numbers := identities.value.numbers;
    if numbers == [] { return Ok(NoOpenPr); }
    if |numbers| > 8 {
      raised := client.PostStatus(head, Failure);
      return if raised then Err("GitHub API unavailable") else Ok(Published(Failure));
    }
    var results := EvaluatePrs(client, c, a, head, None, numbers);
    if results.Err? { return Err(results.error); }
    var state := Aggregate(results.value);
    if state.Success? {
      results := EvaluatePrs(client, c, a, head, None, numbers);
      if results.Err? { return Err(results.error); }
      state := Aggregate(results.value);
    }
    var latest := OpenHeadPrs(client, head);
    if latest.Err? { return Err(latest.error); }
    if latest.value != identities.value { return Ok(StaleIdentity); }
    if state.Success? {
      latest := OpenHeadPrs(client, head);
      if latest.Err? { return Err(latest.error); }
      if latest.value != identities.value { return Ok(StaleIdentity); }
    }
    raised := client.PostStatus(head, state);
    r := if raised then Err("GitHub API unavailable") else Ok(Published(state));
  }

  // ---------------------------------------------------------------- a shard of heads

  /** The pending posts of a shard run: what is written, and the heads whose post returned. */
  function Invalidate(env: Environment, w: Writer, heads: seq<string>): (r: (Writer, seq<string>))
    decreases |heads|
  {
    if heads == [] then (w, [])
    else
      var n := |heads| - 1;
      var (w1, ready) := Invalidate(env, w, heads[..n]);
      var (raised, w2) := Publish(env, w1, heads[n], Pending);
      (w2, if raised then ready else ready + [heads[n]])
  }

  datatype Request = Request(shard: char, heads: seq<string>, slot: nat, retryOnly: bool, invalidateOnly: bool)

  datatype Summary = Summary(selected: string, ready: seq<string>, outcome: Option<Result<Outcome>>)

  datatype ShardExit = ShardExit(result: Result<Summary>, w: Writer)

  predicate Admissible(q: Request) {
    Sharding.HexDigit(q.shard) && Sharding.PassesGuard(q.shard, q.heads) && !(q.retryOnly && q.invalidateOnly)
  }

  /** The heads of the request in the order of its one group, the one of the hour, and those to invalidate. */
  function GroupOf(q: Request): (g: seq<string>)
    requires Admissible(q)
    ensures g != []
  {
    assert |Sharding.GroupsOf(q.heads).value[0].heads| == |q.heads|;
    Sharding.GroupsOf(q.heads).value[0].heads
  }

  function HourHead(q: Request): string
    requires Admissible(q)
  {
    Sharding.Selected(GroupOf(q), q.slot)
  }

  function ToInvalidate(q: Request): seq<string>
    requires Admissible(q)
  {
    if q.retryOnly then [HourHead(q)] else GroupOf(q)
  }

  function ReconcileShard(env: Environment, w: Writer, c: Contract, a: Authority, q: Request): ShardExit {
    if !Admissible(q) then ShardExit(Err("invalid reconciliation request"), w)
    else
      var selected := HourHead(q);
      var (w1, ready) := Invalidate(env, w, ToInvalidate(q));
      if selected in ready && !q.invalidateOnly then
        var exit := ReconcileOne(env, w1, c, a, selected);
        ShardExit(Ok(Summary(selected, ready, Some(exit.result))), exit.w)
      else ShardExit(Ok(Summary(selected, ready, None)), w1)
  }

  method InvalidateHeads(client: Client, heads: seq<string>) returns (ready: seq<string>)
    modifies client`clock, client`log
    ensures (client.Written(), ready) == Invalidate(client.env, old(client.Written()), heads)
  {
    ready := [];
    for i := 0 to |heads|
      invariant (client.Written(), ready) == Invalidate(client.env, old(client.Written()), heads[..i])
    {
      assert heads[..i + 1][..i] == heads[..i];
      var raised := client.PostStatus(heads[i], Pending);
      if !raised { ready := ready + [heads[i]]; }
    }
    assert heads[..|heads|] == heads;
  }

  method ReconcileHeads(client: Client, c: Contract, a: Authority, q: Request) returns (r: Result<Summary>)
    modifies client
    ensures ShardExit(r, client.Written()) == ReconcileShard(client.env, old(client.Written()), c, a, q)
  {
    hide ReconcileOne, Invalidate, Sharding.GroupsOf, Sharding.HexDigit, Sharding.Selected;
    if !Sharding.HexDigit(q.shard) || q.heads == [] { return Err("invalid reconciliation request"); }
    var groups := Sharding.GroupHeadShas(q.heads);
    if groups.Err? || |groups.value| != 1 || groups.value[0].shard != q.shard || |groups.value[0].heads| != |q.heads| {
      return Err("invalid reconciliation request");
    }
    if q.retryOnly && q.invalidateOnly { return Err("invalid reconciliation request"); }
    var heads := groups.value[0].heads;
    var selected := Sharding.Selected(heads, q.slot);
    var ready := InvalidateHeads(client, if q.retryOnly then [selected] else heads);
    if selected in ready && !q.invalidateOnly {
      var outcome := ReconcileHead(client, c, a, selected);
      return Ok(Summary(selected, ready, Some(outcome)));
    }
    r := Ok(Summary(selected, ready, None));
  }
}
