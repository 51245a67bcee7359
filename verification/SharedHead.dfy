/** The open PRs that share a head commit, and one pass of evaluations over them. */
module SharedHead {
  import opened Wrappers
  import opened Ordering
  import opened Routing
  import opened Runs
  import opened GitHub
  import opened Evaluation
  import opened EvaluationConservation
  import opened EvaluationSoundness
  import Sharding

  /** What must not change about a PR while it is qualified. */
  datatype Identity = Identity(base: BaseIdentity, branch: string, repo: int, merge: string)

  /** The PRs of a head: their numbers in ascending order, and their identities. */
  datatype Shared = Shared(numbers: seq<nat>, identity: map<nat, Identity>)

  predicate NumberLess(a: nat, b: nat) { a < b }

  function IdentityOf(pull: PullRequest): (r: Result<Identity>) {
    if pull.head.None? || pull.head.value.repo.None? then Err("PR source repository missing")
    else
      var source := pull.head.value;
      if source.branch.None? || source.branch.value == "" || source.repo.value <= 0
      then Err("PR source identity incomplete")
      else
        match BaseOf(pull)
        case Err(e) => Err(e)
        case Ok(base) =>
          if pull.merge.None? || !Sharding.IsSha(pull.merge.value) then Err("PR synthetic merge SHA unavailable")
          else Ok(Identity(base, source.branch.value, source.repo.value, pull.merge.value))
  }

  /** The PR as read: still open, and at the head? */
  function Live(pull: PullRequest, head: string): (r: Result<bool>) {
    if pull.state != Given("open") then Ok(false)
    else if pull.head.None? then Err("PR head metadata missing")
    else Ok(pull.head.value.sha == Some(head))
  }

  /** One associated PR, looked up: its identity when it counts. */
  function Inspect(pull: PullRequest, head: string): (r: Result<Option<Identity>>) {
    match Live(pull, head)
    case Err(e) => Err(e)
    case Ok(live) =>
      if !live then Ok(None)
      else
        match IdentityOf(pull)
        case Err(e) => Err(e)
        case Ok(identity) => Ok(Some(identity))
  }

  /** The PRs found so far, in the order in which they were found. */
  datatype Found = Found(order: seq<nat>, identity: map<nat, Identity>)

  function Add(found: Found, number: nat, identity: Option<Identity>): Found {
    if identity.None? then found else Found(found.order + [number], found.identity[number := identity.value])
  }

  function Discover(env: Environment, s: Session, list: seq<Association>, head: string, found: Found): Reply<Found>
    decreases |list|
  {
    if list == [] then Reply(Ok(found), s)
    else if list[0].state != Some("open") then Discover(env, s, list[1..], head, found)
    else if list[0].number.None? || list[0].number.value <= 0 || list[0].number.value in found.identity
    then Reply(Err("invalid/duplicate PR association for commit"), s)
    else
      var number: nat := list[0].number.value;
      var pull := GetPull(env, s, number);
      match pull.result
      case Err(e) => Reply(Err(e), pull.s)
      case Ok(p) =>
        match Inspect(p, head)
        case Err(e) => Reply(Err(e), pull.s)
        case Ok(identity) => Discover(env, pull.s, list[1..], head, Add(found, number, identity))
  }

  function GetShared(env: Environment, s: Session, head: string): Reply<Shared> {
    var list := GetAssociations(env, s, head);
    match list.result
    case Err(e) => Reply(Err(e), list.s)
    case Ok(items) =>
      var found := Discover(env, list.s, items, head, Found([], map[]));
      match found.result
      case Err(e) => Reply(Err(e), found.s)
      case Ok(all) => Reply(Ok(Shared(SortedSet(all.order, NumberLess), all.identity)), found.s)
  }

  method OpenHeadPrs(client: Client, head: string) returns (r: Result<Shared>)
    modifies client`clock
    ensures Reply(r, client.Now()) == GetShared(client.env, old(client.Now()), head)
  {
    hide Inspect, SortedSet;
    var list := client.Associations(head);
    if list.Err? { return Err(list.error); }
    var items := list.value;
    var found := Found([], map[]);
    ghost var start := client.Now();
    assert items[0..] == items;
    for i := 0 to |items|
      invariant client.files == old(client.files) && client.jobs == old(client.jobs)
      invariant Discover(client.env, start, items, head, Found([], map[])) ==
                Discover(client.env, client.Now(), items[i..], head, found)
    {
      assert items[i..][1..] == items[i + 1..];
      if items[i].state != Some("open") { continue; }
      if items[i].number.None? || items[i].number.value <= 0 || items[i].number.value in found.identity {
        return Err("invalid/duplicate PR association for commit");
      }
      var number: nat := items[i].number.value;
      var pull := client.Pull(number);
      if pull.Err? { return Err(pull.error); }
      var identity := Inspect(pull.value, head);
      if identity.Err? { return Err(identity.error); }
      found := Add(found, number, identity.value);
    }
    r := Ok(Shared(SortedSet(found.order, NumberLess), found.identity));
  }

  // ---------------------------------------------------------------- what discovery returns

  /** An open association was looked up, and its PR is in `found` exactly when it was live at the head. */
  ghost predicate Settled(env: Environment, from: nat, until: nat, head: string, item: Association,
                          identity: map<nat, Identity>) {
    item.number.Some? && item.number.value > 0 &&
    exists t, pull ::
      && from <= t < until && PullAt(env, t, item.number.value) == Ok(pull)
      && (match Inspect(pull, head)
          case Err(_) => false
          case Ok(None) => true
          case Ok(Some(id)) => item.number.value in identity && identity[item.number.value] == id)
  }

  /** The PR was observed open at the head with this identity. */
  ghost predicate Seen(env: Environment, from: nat, until: nat, head: string, number: nat, id: Identity) {
    exists t, pull :: from <= t < until && PullAt(env, t, number) == Ok(pull) && Inspect(pull, head) == Ok(Some(id))
  }

  ghost predicate Tidy(found: Found) {
    && (forall n :: n in found.order <==> n in found.identity)
    && forall i, j :: 0 <= i < j < |found.order| ==> found.order[i] != found.order[j]
  }

  lemma {:induction false} DiscoverClock(env: Environment, s: Session, list: seq<Association>, head: string,
                                         found: Found)
    ensures var r := Discover(env, s, list, head, found); s.clock <= r.s.clock && r.s == s.(clock := r.s.clock)
    decreases |list|
  {
    hide Inspect, PullAt;
    if list != [] {
      DiscoverClock(env, s, list[1..], head, found);
      if list[0].number.Some? && list[0].number.value > 0 {
        var pull := GetPull(env, s, list[0].number.value);
        if pull.result.Ok? && Inspect(pull.result.value, head).Ok? {
          DiscoverClock(env, pull.s, list[1..], head,
                        Add(found, list[0].number.value, Inspect(pull.result.value, head).value));
        }
      }
    }
  }

  /** Discovery returns the PRs that were seen live at the head, and settles every open association. */
  lemma {:induction false} DiscoverMeans(env: Environment, s: Session, list: seq<Association>, head: string,
                                         found: Found, from: nat, until: nat)
    requires Tidy(found) && from <= s.clock && Discover(env, s, list, head, found).s.clock <= until
    requires Discover(env, s, list, head, found).result.Ok?
    ensures var all := Discover(env, s, list, head, found).result.value;
            && Tidy(all)
            && (forall n <- found.identity :: n in all.identity && all.identity[n] == found.identity[n])
            && (forall n <- all.identity :: n in found.identity || Seen(env, from, until, head, n, all.identity[n]))
            && (forall i :: 0 <= i < |list| && list[i].state == Some("open") ==>
                  Settled(env, from, until, head, list[i], all.identity))
    decreases |list|
  {
    hide PullAt, Inspect, Settled, Seen;
    if list != [] {
      var rest := list[1..];
      var all := Discover(env, s, list, head, found).result.value;
      if list[0].state != Some("open") {
        DiscoverMeans(env, s, rest, head, found, from, until);
      } else {
        var number: nat := list[0].number.value;
        var pull := GetPull(env, s, number);
        var p := pull.result.value;
        var id := Inspect(p, head).value;
        var next := Add(found, number, id);
        DiscoverClock(env, pull.s, rest, head, next);
        DiscoverMeans(env, pull.s, rest, head, next, from, until);
        SettledNow(env, from, until, head, list[0], all.identity, s.clock, p);
      }
      forall i | 0 <= i < |list| && list[i].state == Some("open")
        ensures Settled(env, from, until, head, list[i], all.identity) {
        if i > 0 { assert list[i] == rest[i - 1]; }
      }
    }
  }

  lemma SettledNow(env: Environment, from: nat, until: nat, head: string, item: Association,
                   identity: map<nat, Identity>, t: nat, pull: PullRequest)
    requires item.number.Some? && item.number.value > 0 && from <= t < until
    requires PullAt(env, t, item.number.value) == Ok(pull)
    requires Inspect(pull, head).Ok?
    requires Inspect(pull, head).value.Some? ==>
               item.number.value in identity && identity[item.number.value] == Inspect(pull, head).value.value
    ensures Settled(env, from, until, head, item, identity)
    ensures Inspect(pull, head).value.Some? ==>
              Seen(env, from, until, head, item.number.value, identity[item.number.value])
  {
    hide PullAt, Inspect;
  }

  /** What a discovery reports: exactly the associated PRs that were live at the head when looked up. */
  ghost predicate Reported(env: Environment, from: nat, until: nat, head: string, shared: Shared) {
    && Ascending(shared.numbers, NumberLess)
    && (forall n :: n in shared.numbers <==> n in shared.identity)
    && (forall n <- shared.numbers :: Seen(env, from, until, head, n, shared.identity[n]))
    && exists t: nat, list: seq<Association> ::
         && from <= t < until && AssociationsAt(env, t, head) == Ok(list)
         && forall i :: 0 <= i < |list| && list[i].state == Some("open") ==>
              Settled(env, from, until, head, list[i], shared.identity)
  }

  lemma NumbersOrdered()
    ensures StrictOrder(NumberLess)
  {
  }

  lemma SharedMeans(env: Environment, s: Session, head: string)
    ensures var r := GetShared(env, s, head);
            && s.clock < r.s.clock && r.s == s.(clock := r.s.clock)
            && (r.result.Ok? ==> Reported(env, s.clock, r.s.clock, head, r.result.value))
  {
    hide AssociationsAt, SortedSet, Seen, Settled, StrictOrder, Ascending, Discover;
    var list := GetAssociations(env, s, head);
    if list.result.Ok? {
      var none := Found([], map[]);
      DiscoverClock(env, list.s, list.result.value, head, none);
      var found := Discover(env, list.s, list.result.value, head, none);
      if found.result.Ok? {
        DiscoverMeans(env, list.s, list.result.value, head, none, s.clock, found.s.clock);
        NumbersOrdered();
        SortedSetCorrect(found.result.value.order, NumberLess);
        var shared := GetShared(env, s, head).result.value;
        assert AssociationsAt(env, s.clock, head) == Ok(list.result.value);
      }
    }
  }

  // ---------------------------------------------------------------- one pass over the PRs of a head

  function Prepend(done: seq<Evaluation>, r: Reply<seq<Evaluation>>): Reply<seq<Evaluation>> {
    match r.result
    case Err(_) => r
    case Ok(rest) => Reply(Ok(done + rest), r.s)
  }

  function EvaluateEach(env: Environment, s: Session, c: Contract, a: Authority, head: string,
                        snapshot: Option<seq<Run>>, numbers: seq<nat>): Reply<seq<Evaluation>>
    decreases |numbers|
  {
    if numbers == [] then Reply(Ok([]), s)
    else
      var first := Evaluate(env, s, c, a, numbers[0], head, snapshot);
      match first.result
      case Err(e) => Reply(Err(e), first.s)
      case Ok(e) => Prepend([e], EvaluateEach(env, first.s, c, a, head, snapshot, numbers[1..]))
  }

  method EvaluatePrs(client: Client, c: Contract, a: Authority, head: string, snapshot: Option<seq<Run>>,
                     numbers: seq<nat>)
    returns (r: Result<seq<Evaluation>>)
    modifies client`clock, client`files, client`jobs
    ensures Reply(r, client.Now()) == EvaluateEach(client.env, old(client.Now()), c, a, head, snapshot, numbers)
  {
    hide Evaluate;
    var done: seq<Evaluation> := [];
    assert numbers[0..] == numbers;
    ghost var all := EvaluateEach(client.env, client.Now(), c, a, head, snapshot, numbers);
    assert all.result.Ok? ==> done + all.result.value == all.result.value;
    for i := 0 to |numbers|
      invariant all == Prepend(done, EvaluateEach(client.env, client.Now(), c, a, head, snapshot, numbers[i..]))
    {
      assert numbers[i..][1..] == numbers[i + 1..];
      var e := EvaluatePr(client, c, a, numbers[i], head, snapshot);
      if e.Err? { return Err(e.error); }
      ghost var rest := EvaluateEach(client.env, client.Now(), c, a, head, snapshot, numbers[i + 1..]);
      assert rest.result.Ok? ==> done + ([e.value] + rest.result.value) == done + [e.value] + rest.result.value;
      done := done + [e.value];
    }
    assert done + [] == done;
    r := Ok(done);
  }

  /** Observations made in the window show that the PR requires exactly these gates and passes them. */
  ghost predicate Proven(env: Environment, from: nat, until: nat, c: Contract, a: Authority, pr: nat, head: string,
                         required: seq<string>) {
    exists e :: Proves(env, from, until, c, a, pr, head, e) && Required(c, e.changed) == Ok(required)
  }

  /** A pass that returned evaluated every PR, each with a conserved verdict and each success with its evidence. */
  ghost predicate PassedOver(env: Environment, from: nat, until: nat, c: Contract, a: Authority, head: string,
                             numbers: seq<nat>, results: seq<Evaluation>) {
    && |results| == |numbers|
    && forall i :: 0 <= i < |numbers| ==>
         && Conserved(results[i], c, numbers[i], head)
         && (results[i].state.Success? ==> Proven(env, from, until, c, a, numbers[i], head, results[i].required))
  }

  lemma ProvenLater(env: Environment, from: nat, until: nat, later: nat, c: Contract, a: Authority, pr: nat,
                    head: string, required: seq<string>)
    requires Proven(env, from, until, c, a, pr, head, required) && until <= later
    ensures Proven(env, from, later, c, a, pr, head, required)
  {
    hide Required, GateProven, Applicable, MatterOf, PathsOf, FilesAt, RunsAt, CommitAt, PullAt, BaseOf, Covers,
         Sharding.IsSha;
    var e :| Proves(env, from, until, c, a, pr, head, e) && Required(c, e.changed) == Ok(required);
    var m := MatterOf(c, a, pr, head, e);
    forall i | 0 <= i < |c.gates| && (Applicable(c.gates[i], c, e.original) || Applicable(c.gates[i], c, e.changed))
      ensures GateProven(env, from, later, m, c.gates[i])
    {
      ProvenLonger(env, from, until, later, m, c.gates[i]);
    }
    assert Proves(env, from, later, c, a, pr, head, e);
  }

  lemma {:induction false} EachSound(env: Environment, start: nat, s: Session, c: Contract, a: Authority, head: string,
                                     snapshot: Option<seq<Run>>, snapshotAt: nat, numbers: seq<nat>)
    requires Loaded(c) && start <= s.clock && CachesObserved(env, start, s)
    requires snapshot.Some? ==> start <= snapshotAt < s.clock && RunsAt(env, snapshotAt, head) == Ok(snapshot.value)
    ensures var r := EvaluateEach(env, s, c, a, head, snapshot, numbers);
            && Later(env, start, s, r.s)
            && (r.result.Ok? ==> PassedOver(env, start, r.s.clock, c, a, head, numbers, r.result.value))
    decreases |numbers|
  {
    hide CachesObserved, Loaded, Evaluate, Conserved, Proves, RunsAt, Required;
    LaterTick(env, start, s, 0);
    if numbers != [] {
      var first := Evaluate(env, s, c, a, numbers[0], head, snapshot);
      var e := SuccessIsSound(env, start, s, c, a, numbers[0], head, snapshot, snapshotAt);
      LaterClock(env, start, s, first.s);
      if first.result.Ok? {
        EvaluationConserves(env, s, c, a, numbers[0], head, snapshot);
        EachSound(env, start, first.s, c, a, head, snapshot, snapshotAt, numbers[1..]);
        var rest := EvaluateEach(env, first.s, c, a, head, snapshot, numbers[1..]);
        LaterClock(env, start, first.s, rest.s);
        LaterTrans(env, start, s, first.s, rest.s);
        if rest.result.Ok? {
          var results := [first.result.value] + rest.result.value;
          forall i | 0 <= i < |numbers|
            ensures Conserved(results[i], c, numbers[i], head)
            ensures results[i].state.Success? ==>
                      Proven(env, start, rest.s.clock, c, a, numbers[i], head, results[i].required)
          {
            if i == 0 {
              if results[0].state.Success? {
                ProvenLater(env, start, first.s.clock, rest.s.clock, c, a, numbers[0], head, results[0].required);
              }
            } else {
              assert results[i] == rest.result.value[i - 1] && numbers[i] == numbers[1..][i - 1];
            }
          }
        }
      }
    }
  }
}
