/** Over every trace of writer runs, a visible success is one that a whole run has justified. */
module ReconcileTrace {
  import opened Wrappers
  import opened Routing
  import opened GitHub
  import opened Evaluation
  import opened EvaluationConservation
  import opened SharedHead
  import opened Decision
  import opened DecisionSoundness
  import opened Reconcile
  import Sharding

  // ---------------------------------------------------------------- what justifies a success

  /** Every PR of the head passed in the window. */
  ghost predicate AllProven(env: Environment, from: nat, until: nat, c: Contract, a: Authority, head: string,
                            numbers: seq<nat>) {
    forall n <- numbers :: exists required :: Proven(env, from, until, c, a, n, head, required)
  }

  /** The identities read three times, with two inspections of all their PRs in between. */
  ghost predicate Story(env: Environment, c: Contract, a: Authority, head: string, from: nat, until: nat,
                        shared: Shared, t0: nat, t1: nat, t2: nat, t3: nat) {
    && from < t0 <= t1 <= t2 < t3 < until
    && Reported(env, from, t0, head, shared) && 1 <= |shared.numbers| <= 8
    && AllProven(env, t0, t1, c, a, head, shared.numbers)
    && AllProven(env, t1, t2, c, a, head, shared.numbers)
    && Reported(env, t2, t3, head, shared)
    && Reported(env, t3, until, head, shared)
  }

  ghost predicate JustifiedSuccess(env: Environment, c: Contract, a: Authority, head: string, from: nat, until: nat) {
    exists shared, t0, t1, t2, t3 :: Story(env, c, a, head, from, until, shared, t0, t1, t2, t3)
  }

  ghost predicate Unbatched(s: Session) { s.files.None? && s.jobs.None? }

  lemma UnbatchedObserved(env: Environment, s: Session)
    requires Unbatched(s)
    ensures CachesObserved(env, s.clock, s)
  {
  }

  lemma InspectionSound(env: Environment, s: Session, c: Contract, a: Authority, head: string, numbers: seq<nat>)
    requires Loaded(c) && Unbatched(s)
    ensures var r := EvaluateEach(env, s, c, a, head, None, numbers);
            && s.clock <= r.s.clock && Unbatched(r.s)
            && (r.result.Ok? && AggregateState(r.result.value).Success? ==>
                  AllProven(env, s.clock, r.s.clock, c, a, head, numbers))
  {
    hide Loaded, CachesObserved, EvaluateEach, RunsAt, AggregateState, DecisionState, Conserved, Proven;
    UnbatchedObserved(env, s);
    EachSound(env, s.clock, s, c, a, head, None, 0, numbers);
    var r := EvaluateEach(env, s, c, a, head, None, numbers);
    if r.result.Ok? && AggregateState(r.result.value).Success? {
      PassConserved(env, s.clock, r.s.clock, c, a, head, numbers, r.result.value);
      ConservedStates(c, head, numbers, r.result.value);
      forall n | n in numbers ensures exists required :: Proven(env, s.clock, r.s.clock, c, a, n, head, required) {
        var i :| 0 <= i < |numbers| && numbers[i] == n;
        assert Proven(env, s.clock, r.s.clock, c, a, numbers[i], head, r.result.value[i].required);
      }
    }
  }

  lemma InspectTwiceSound(env: Environment, s: Session, c: Contract, a: Authority, head: string, numbers: seq<nat>)
    returns (t: nat)
    requires Loaded(c) && Unbatched(s)
    ensures var r := InspectTwice(env, s, c, a, head, numbers);
            && s.clock <= t <= r.s.clock && Unbatched(r.s)
            && (r.result.Ok? && AggregateState(r.result.value).Success? ==>
                  AllProven(env, s.clock, t, c, a, head, numbers) && AllProven(env, t, r.s.clock, c, a, head, numbers))
  {
    hide Loaded, EvaluateEach, AggregateState, AllProven;
    InspectionSound(env, s, c, a, head, numbers);
    var once := EvaluateEach(env, s, c, a, head, None, numbers);
    t := once.s.clock;
    if once.result.Ok? && AggregateState(once.result.value).Success? {
      InspectionSound(env, once.s, c, a, head, numbers);
    }
  }

  lemma StillSameSound(env: Environment, s: Session, head: string, identities: Shared) returns (t: nat)
    ensures forall green :: var r := StillSame(env, s, head, identities, green);
            s.clock <= r.s.clock && r.s == s.(clock := r.s.clock)
    ensures var r := StillSame(env, s, head, identities, true);
            r.result == Ok(true) ==>
              && s.clock < t < r.s.clock
              && Reported(env, s.clock, t, head, identities) && Reported(env, t, r.s.clock, head, identities)
  {
    hide GetShared, Reported;
    SharedMeans(env, s, head);
    var latest := GetShared(env, s, head);
    t := latest.s.clock;
    SharedMeans(env, latest.s, head);
  }

  // ---------------------------------------------------------------- one run

  /** What a run adds to the log: copies of its pending post, and then copies of at most one final post. */
  datatype Added = Added(pendings: seq<Post>, finals: seq<Post>, state: State, from: nat, until: nat)

  ghost predicate RunPosts(env: Environment, w: Writer, w': Writer, c: Contract, a: Authority, head: string,
                           result: Result<Outcome>, x: Added) {
    && w'.log == w.log + x.pendings + x.finals
    && Copies(x.pendings, head, Pending, w.s.clock, x.from)
    && Copies(x.finals, head, x.state, x.until, w'.s.clock)
    && (x.finals != [] ==> x.pendings != [] && x.from <= x.until)
    && (x.finals != [] && x.state.Success? ==> JustifiedSuccess(env, c, a, head, x.from, x.until))
    && (x.pendings == [] ==> result.Err?)
    && (result.Ok? ==>
          if result.value.Published? then x.finals != [] && result.value.state == x.state else x.finals == [])
  }

  /** The run has made its pending post and nothing else yet. */
  ghost predicate Revoked(w: Writer, w2: Writer, head: string, from: nat, pendings: seq<Post>) {
    && w2.log == w.log + pendings && pendings != []
    && Copies(pendings, head, Pending, w.s.clock, from) && from <= w2.s.clock
  }

  lemma FinalPosts(env: Environment, w: Writer, w2: Writer, c: Contract, a: Authority, head: string, state: State,
                   from: nat, pendings: seq<Post>)
    returns (x: Added)
    requires Revoked(w, w2, head, from, pendings)
    requires state.Success? ==> JustifiedSuccess(env, c, a, head, from, w2.s.clock)
    ensures var exit := PublishFinal(env, w2, head, state);
            && RunPosts(env, w, exit.w, c, a, head, exit.result, x)
            && w2.s.clock < exit.w.s.clock && exit.w.s == w2.s.(clock := exit.w.s.clock)
  {
    hide JustifiedSuccess, Publish;
    var finals := PublishMeans(env, w2, head, state, ATTEMPTS);
    x := Added(pendings, finals, state, from, w2.s.clock);
  }

  lemma PendingOnly(env: Environment, w: Writer, w2: Writer, c: Contract, a: Authority, head: string, from: nat,
                    pendings: seq<Post>, result: Result<Outcome>)
    returns (x: Added)
    requires w2.log == w.log + pendings && Copies(pendings, head, Pending, w.s.clock, from)
    requires result.Ok? ==> pendings != [] && !result.value.Published?
    ensures RunPosts(env, w, w2, c, a, head, result, x)
  {
    hide JustifiedSuccess;
    x := Added(pendings, [], Pending, from, from);
    assert w.log + pendings + [] == w.log + pendings;
  }

  lemma SettlePosts(env: Environment, w: Writer, w2: Writer, c: Contract, a: Authority, head: string, shared: Shared,
                    from: nat, pendings: seq<Post>)
    returns (x: Added)
    requires Loaded(c) && Unbatched(w2.s) && Revoked(w, w2, head, from, pendings)
    requires from < w2.s.clock && Reported(env, from, w2.s.clock, head, shared) && 1 <= |shared.numbers| <= 8
    ensures var exit := Settle(env, w2, c, a, head, shared);
            RunPosts(env, w, exit.w, c, a, head, exit.result, x) && w2.s.clock <= exit.w.s.clock && Unbatched(exit.w.s)
  {
    hide Loaded, InspectTwice, StillSame, AggregateState, Reported, AllProven, RunPosts, PublishFinal, Copies;
    var t1 := InspectTwiceSound(env, w2.s, c, a, head, shared.numbers);
    var results := InspectTwice(env, w2.s, c, a, head, shared.numbers);
    var t3 := StillSameSound(env, results.s, head, shared);
    var exit := Settle(env, w2, c, a, head, shared);
    if results.result.Ok? {
      var state := AggregateState(results.result.value);
      var same := StillSame(env, results.s, head, shared, state.Success?);
      if same.result == Ok(true) {
        if state.Success? {
          assert Story(env, c, a, head, from, same.s.clock, shared, w2.s.clock, t1, results.s.clock, t3);
        }
        x := FinalPosts(env, w, Writer(same.s, w2.log), c, a, head, state, from, pendings);
      } else {
        x := PendingOnly(env, w, Writer(same.s, w2.log), c, a, head, from, pendings, exit.result);
      }
    } else {
      x := PendingOnly(env, w, Writer(results.s, w2.log), c, a, head, from, pendings, exit.result);
    }
  }

  /** One run for a head, whatever GitHub does and whichever of its calls raise. */
  lemma RunIsSafe(env: Environment, w: Writer, c: Contract, a: Authority, head: string) returns (x: Added)
    requires Loaded(c) && Unbatched(w.s)
    ensures var exit := ReconcileOne(env, w, c, a, head);
            RunPosts(env, w, exit.w, c, a, head, exit.result, x) && w.s.clock <= exit.w.s.clock && Unbatched(exit.w.s)
  {
    hide Loaded, GetShared, Settle, PublishFinal, Publish, RunPosts, Reported, Copies, Sharding.IsSha;
    var exit := ReconcileOne(env, w, c, a, head);
    if !Sharding.IsSha(head) {
      NoCopies(head, w.s.clock);
      x := PendingOnly(env, w, exit.w, c, a, head, w.s.clock, [], exit.result);
    } else {
      var (raised, w1) := Publish(env, w, head, Pending);
      var pendings := PublishMeans(env, w, head, Pending, ATTEMPTS);
      var from := w1.s.clock;
      if raised {
        x := PendingOnly(env, w, w1, c, a, head, from, pendings, exit.result);
      } else {
        SharedMeans(env, w1.s, head);
        var identities := GetShared(env, w1.s, head);
        var w2 := Writer(identities.s, w1.log);
        if identities.result.Err? || identities.result.value.numbers == [] {
          x := PendingOnly(env, w, w2, c, a, head, from, pendings, exit.result);
        } else if |identities.result.value.numbers| > 8 {
          x := FinalPosts(env, w, w2, c, a, head, Failure, from, pendings);
        } else {
          x := SettlePosts(env, w, w2, c, a, head, identities.result.value, from, pendings);
        }
      }
    }
  }

  lemma NoCopies(head: string, t: nat)
    ensures Copies([], head, Pending, t, t)
  {
  }

  // ---------------------------------------------------------------- the visible status

  /** The status of a commit: that of the last post for it. */
  function Visible(log: seq<Post>, head: string): (r: Option<State>)
    decreases |log|
  {
    if log == [] then None
    else if log[|log| - 1].head == head then Some(log[|log| - 1].state)
    else Visible(log[..|log| - 1], head)
  }

  lemma VisibleAfter(log: seq<Post>, p: Post, head: string)
    ensures Visible(log + [p], head) == if p.head == head then Some(p.state) else Visible(log, head)
  {
    assert (log + [p])[..|log|] == log;
  }

  lemma {:induction false} VisibleAfterCopies(log: seq<Post>, posts: seq<Post>, head: string, state: State, from: nat,
                                              until: nat, h: string)
    requires Copies(posts, head, state, from, until)
    ensures Visible(log + posts, h) == if h == head && posts != [] then Some(state) else Visible(log, h)
    decreases |posts|
  {
    if posts == [] {
      assert log + posts == log;
    } else {
      var n := |posts| - 1;
      VisibleAfterCopies(log, posts[..n], head, state, from, until, h);
      assert log + posts == log + posts[..n] + [posts[n]];
      VisibleAfter(log + posts[..n], posts[n], h);
    }
  }

  /** The status shows pending or failure, or a success that a justified run made after position `base`. */
  ghost predicate SafeStatus(env: Environment, c: Contract, a: Authority, log: seq<Post>, base: nat, head: string) {
    || Visible(log, head) in {Some(Pending), Some(Failure)}
    || (Visible(log, head) == Some(Success) && exists i :: LastPost(log, head, i) && SuccessAt(env, c, a, log, base, i))
  }

  ghost predicate LastPost(log: seq<Post>, head: string, i: nat) {
    i < |log| && log[i].head == head && forall j :: i < j < |log| ==> log[j].head != head
  }

  /** Post `j` is the last pending post of the run that made the successful post `i`, and that run is justified. */
  ghost predicate RunOf(env: Environment, c: Contract, a: Authority, log: seq<Post>, i: nat, j: nat, from: nat,
                        until: nat) {
    && j < i < |log|
    && log[j].head == log[i].head && log[j].state.Pending?
    && (forall k :: j < k <= i ==> log[k].head == log[i].head && log[k].state.Success?)
    && log[j].at < from <= until <= log[i].at
    && JustifiedSuccess(env, c, a, log[i].head, from, until)
  }

  ghost predicate SuccessAt(env: Environment, c: Contract, a: Authority, log: seq<Post>, base: nat, i: nat) {
    exists j, from, until :: base <= j && RunOf(env, c, a, log, i, j, from, until)
  }

  /** The copies of a justified final post are successes of one run. */
  lemma FinalsJustified(env: Environment, w: Writer, w': Writer, c: Contract, a: Authority, head: string,
                        result: Result<Outcome>, x: Added, i: nat)
    requires RunPosts(env, w, w', c, a, head, result, x) && x.state.Success? && |w.log + x.pendings| <= i < |w'.log|
    ensures SuccessAt(env, c, a, w'.log, |w.log|, i)
  {
    hide JustifiedSuccess;
    var n := |w.log + x.pendings|;
    var j := n - 1;
    assert w'.log[j] == x.pendings[|x.pendings| - 1];
    assert forall k :: n <= k <= i ==> w'.log[k] == x.finals[k - n];
    assert RunOf(env, c, a, w'.log, i, j, x.from, x.until);
  }

  lemma RunVisible(env: Environment, w: Writer, w': Writer, c: Contract, a: Authority, head: string,
                   result: Result<Outcome>, x: Added, h: string)
    requires RunPosts(env, w, w', c, a, head, result, x)
    ensures Visible(w'.log, h) ==
            if h != head || x.pendings == [] then Visible(w.log, h)
            else if x.finals == [] then Some(Pending)
            else Some(x.state)
  {
    hide JustifiedSuccess, Visible, Copies;
    VisibleAfterCopies(w.log, x.pendings, head, Pending, w.s.clock, x.from, h);
    VisibleAfterCopies(w.log + x.pendings, x.finals, head, x.state, x.until, w'.s.clock, h);
    if x.finals == [] { assert w.log + x.pendings + x.finals == w.log + x.pendings; }
  }

  /** A run leaves its head safe unless no copy of its pending post landed, and touches no other head. */
  lemma RunLeavesSafe(env: Environment, w: Writer, c: Contract, a: Authority, head: string)
    requires Loaded(c) && Unbatched(w.s)
    ensures var log := ReconcileOne(env, w, c, a, head).w.log;
            && (SafeStatus(env, c, a, log, |w.log|, head) || log == w.log)
            && (forall other :: other != head ==> Visible(log, other) == Visible(w.log, other))
  {
    hide Loaded, ReconcileOne, JustifiedSuccess, Visible, SuccessAt, Copies;
    var x := RunIsSafe(env, w, c, a, head);
    var exit := ReconcileOne(env, w, c, a, head);
    forall h ensures Visible(exit.w.log, h) ==
                     if h != head || x.pendings == [] then Visible(w.log, h)
                     else if x.finals == [] then Some(Pending)
                     else Some(x.state)
    {
      RunVisible(env, w, exit.w, c, a, head, exit.result, x, h);
    }
    if x.pendings == [] {
      assert w.log + [] + [] == w.log;
    } else if x.finals != [] && x.state.Success? {
      var i := |exit.w.log| - 1;
      assert exit.w.log[i] == x.finals[|x.finals| - 1];
      FinalsJustified(env, w, exit.w, c, a, head, exit.result, x, i);
      assert LastPost(exit.w.log, head, i) by { LastCopy(x.finals, head, x.state, x.until, exit.w.s.clock); }
    }
  }

  lemma LastCopy(posts: seq<Post>, head: string, state: State, from: nat, until: nat)
    requires Copies(posts, head, state, from, until) && posts != []
    ensures posts[|posts| - 1].head == head && posts[|posts| - 1].state == state
  {
  }

  // ---------------------------------------------------------------- a shard run

  ghost predicate OnlyPending(log: seq<Post>, log': seq<Post>) {
    log <= log' && forall i :: |log| <= i < |log'| ==> log'[i].state.Pending?
  }

  lemma {:induction false} InvalidatePosts(env: Environment, w: Writer, heads: seq<string>)
    ensures var (w', ready) := Invalidate(env, w, heads);
            w.s.clock <= w'.s.clock && w'.s == w.s.(clock := w'.s.clock) && OnlyPending(w.log, w'.log)
    decreases |heads|
  {
    hide Publish;
    if heads != [] {
      var n := |heads| - 1;
      InvalidatePosts(env, w, heads[..n]);
      var w1 := Invalidate(env, w, heads[..n]).0;
      var posts := PublishMeans(env, w1, heads[n], Pending, ATTEMPTS);
    }
  }

  /** Some attempt to post pending for the k-th head lands. */
  ghost predicate Lands(env: Environment, w: Writer, heads: seq<string>, k: nat)
    requires k < |heads|
  {
    var before := Invalidate(env, w, heads[..k]).0;
    Publish(env, before, heads[k], Pending).1.log != before.log
  }

  lemma InvalidateStep(env: Environment, w: Writer, heads: seq<string>, h: string)
    requires heads != []
    ensures var n := |heads| - 1;
            var (w1, ready1) := Invalidate(env, w, heads[..n]);
            var (w', ready) := Invalidate(env, w, heads);
            && Visible(w'.log, h) ==
               (if h == heads[n] && Lands(env, w, heads, n) then Some(Pending) else Visible(w1.log, h))
            && (h in ready ==> h in ready1 || (h == heads[n] && Lands(env, w, heads, n)))
  {
    hide Visible, Publish, Copies;
    var n := |heads| - 1;
    var w1 := Invalidate(env, w, heads[..n]).0;
    var posts := PublishMeans(env, w1, heads[n], Pending, ATTEMPTS);
    var w2 := Publish(env, w1, heads[n], Pending).1;
    VisibleAfterCopies(w1.log, posts, heads[n], Pending, w1.s.clock, w2.s.clock, h);
    assert posts == [] ==> w1.log + posts == w1.log;
    assert posts != [] ==> |w1.log + posts| > |w1.log|;
  }

  /** A head of a shard run loses its old status if its own post lands, whatever the other posts do. */
  lemma {:induction false} InvalidateMeans(env: Environment, w: Writer, heads: seq<string>, h: string)
    ensures var (w', ready) := Invalidate(env, w, heads);
            && (forall k :: 0 <= k < |heads| && heads[k] == h && Lands(env, w, heads, k) ==>
                  Visible(w'.log, h) == Some(Pending))
            && (h !in heads ==> Visible(w'.log, h) == Visible(w.log, h))
            && (h in ready ==> h in heads && Visible(w'.log, h) == Some(Pending))
    decreases |heads|
  {
    hide Visible, Invalidate, Publish, Lands;
    if heads == [] {
      assert Invalidate(env, w, heads) == (w, []) by { InvalidateNone(env, w); }
    } else {
      var n := |heads| - 1;
      var init := heads[..n];
      InvalidateMeans(env, w, init, h);
      InvalidateStep(env, w, heads, h);
      forall k | 0 <= k < n ensures init[k] == heads[k] && Lands(env, w, init, k) == Lands(env, w, heads, k) {
        LandsPrefix(env, w, heads, n, k);
      }
      assert h in heads <==> h in init || h == heads[n];
    }
  }

  lemma LandsPrefix(env: Environment, w: Writer, heads: seq<string>, n: nat, k: nat)
    requires k < n <= |heads|
    ensures Lands(env, w, heads[..n], k) == Lands(env, w, heads, k)
  {
    assert heads[..n][..k] == heads[..k];
  }

  lemma InvalidateNone(env: Environment, w: Writer)
    ensures Invalidate(env, w, []) == (w, [])
  {
  }

  lemma SafeBefore(env: Environment, c: Contract, a: Authority, log: seq<Post>, base: nat, later: nat, head: string)
    requires SafeStatus(env, c, a, log, later, head) && base <= later
    ensures SafeStatus(env, c, a, log, base, head)
  {
    hide Visible, JustifiedSuccess;
    if Visible(log, head) == Some(Success) {
      var i :| LastPost(log, head, i) && SuccessAt(env, c, a, log, later, i);
      var j, from, until :| later <= j && RunOf(env, c, a, log, i, j, from, until);
      assert SuccessAt(env, c, a, log, base, i);
    }
  }

  /**
   A shard run: every head whose pending post landed is safe afterwards, the head of the hour even if
   its reconciliation raises or loses its own pending post, and heads outside the request are untouched.
   */
  lemma ShardRunRevokes(env: Environment, w: Writer, c: Contract, a: Authority, q: Request)
    requires Loaded(c) && Unbatched(w.s) && Admissible(q)
    ensures var log := ReconcileShard(env, w, c, a, q).w.log;
            && (forall k :: 0 <= k < |ToInvalidate(q)| && Lands(env, w, ToInvalidate(q), k) ==>
                  SafeStatus(env, c, a, log, |w.log|, ToInvalidate(q)[k]))
            && (forall h :: h !in ToInvalidate(q) ==> Visible(log, h) == Visible(w.log, h))
  {
    hide Loaded, ReconcileOne, JustifiedSuccess, Visible, Invalidate, Admissible, HourHead, ToInvalidate, Lands,
         SuccessAt;
    var heads := ToInvalidate(q);
    InvalidatePosts(env, w, heads);
    var (w1, ready) := Invalidate(env, w, heads);
    var selected := HourHead(q);
    InvalidateMeans(env, w, heads, selected);
    RunLeavesSafe(env, w1, c, a, selected);
    var log := ReconcileShard(env, w, c, a, q).w.log;
    if selected in ready && !q.invalidateOnly && SafeStatus(env, c, a, log, |w1.log|, selected) {
      SafeBefore(env, c, a, log, |w.log|, |w1.log|, selected);
    }
    forall k | 0 <= k < |heads| && Lands(env, w, heads, k) ensures SafeStatus(env, c, a, log, |w.log|, heads[k]) {
      InvalidateMeans(env, w, heads, heads[k]);
      assert Visible(w1.log, heads[k]) == Some(Pending);
    }
    forall h | h !in heads ensures Visible(log, h) == Visible(w.log, h) {
      InvalidateMeans(env, w, heads, h);
    }
  }

  // ---------------------------------------------------------------- traces

  /** What a run is asked to do. */
  datatype Job = OneHead(head: string) | OneShard(q: Request)

  /** The next run of the writer: it starts after any delay and loads its own contract and authority. */
  datatype Event = Event(delay: nat, c: Contract, a: Authority, job: Job)

  function Step(env: Environment, w: Writer, event: Event): Writer {
    var w1 := Writer(Tick(w.s, event.delay), w.log);
    match event.job
    case OneHead(head) => ReconcileOne(env, w1, event.c, event.a, head).w
    case OneShard(q) => ReconcileShard(env, w1, event.c, event.a, q).w
  }

  function Trace(env: Environment, w: Writer, events: seq<Event>): Writer
    decreases |events|
  {
    if events == [] then w else Step(env, Trace(env, w, events[..|events| - 1]), events[|events| - 1])
  }

  ghost predicate AllLoaded(events: seq<Event>) { forall k :: 0 <= k < |events| ==> Loaded(events[k].c) }

  /** The log only grows, and every new success is justified by a run with this contract and authority. */
  ghost predicate StepSound(env: Environment, c: Contract, a: Authority, log: seq<Post>, log': seq<Post>) {
    log <= log' && forall i :: |log| <= i < |log'| && log'[i].state.Success? ==> SuccessAt(env, c, a, log', |log|, i)
  }

  lemma RunIsSound(env: Environment, w: Writer, c: Contract, a: Authority, head: string)
    requires Loaded(c) && Unbatched(w.s)
    ensures var exit := ReconcileOne(env, w, c, a, head); StepSound(env, c, a, w.log, exit.w.log) && Unbatched(exit.w.s)
  {
    hide Loaded, ReconcileOne, JustifiedSuccess, SuccessAt;
    var x := RunIsSafe(env, w, c, a, head);
    var exit := ReconcileOne(env, w, c, a, head);
    var n := |w.log + x.pendings|;
    assert forall i :: |w.log| <= i < n ==> exit.w.log[i] == x.pendings[i - |w.log|];
    forall i | |w.log| <= i < |exit.w.log| && exit.w.log[i].state.Success?
      ensures SuccessAt(env, c, a, exit.w.log, |w.log|, i) {
      if i >= n {
        assert exit.w.log[i] == x.finals[i - n];
        FinalsJustified(env, w, exit.w, c, a, head, exit.result, x, i);
      }
    }
  }

  lemma PendingThenSound(env: Environment, c: Contract, a: Authority, log: seq<Post>, log1: seq<Post>, log2: seq<Post>)
    requires OnlyPending(log, log1) && StepSound(env, c, a, log1, log2)
    ensures StepSound(env, c, a, log, log2)
  {
    hide JustifiedSuccess;
    assert forall i :: |log| <= i < |log1| ==> log2[i] == log1[i];
    forall i | |log| <= i < |log2| && log2[i].state.Success? ensures SuccessAt(env, c, a, log2, |log|, i) {
      var j, from, until :| |log1| <= j && RunOf(env, c, a, log2, i, j, from, until);
    }
  }

  lemma StepIsSound(env: Environment, w: Writer, event: Event)
    requires Loaded(event.c) && Unbatched(w.s)
    ensures var w' := Step(env, w, event); StepSound(env, event.c, event.a, w.log, w'.log) && Unbatched(w'.s)
  {
    hide Loaded, ReconcileOne, StepSound, Admissible, HourHead, ToInvalidate, Invalidate;
    var w1 := Writer(Tick(w.s, event.delay), w.log);
    match event.job
    case OneHead(head) => RunIsSound(env, w1, event.c, event.a, head);
    case OneShard(q) =>
      NothingNew(env, event.c, event.a, w1.log);
      if Admissible(q) {
        InvalidatePosts(env, w1, ToInvalidate(q));
        var w2 := Invalidate(env, w1, ToInvalidate(q)).0;
        NothingNew(env, event.c, event.a, w2.log);
        PendingThenSound(env, event.c, event.a, w1.log, w2.log, w2.log);
        RunIsSound(env, w2, event.c, event.a, HourHead(q));
        PendingThenSound(env, event.c, event.a, w1.log, w2.log,
                         ReconcileOne(env, w2, event.c, event.a, HourHead(q)).w.log);
      }
  }

  lemma NothingNew(env: Environment, c: Contract, a: Authority, log: seq<Post>)
    ensures StepSound(env, c, a, log, log)
  {
  }

  /** The k-th run of the trace made post `i` and justifies it, with the contract and authority it loaded. */
  ghost predicate MadeBy(env: Environment, w: Writer, events: seq<Event>, k: nat, log: seq<Post>, i: nat)
    requires k < |events|
  {
    && |Trace(env, w, events[..k]).log| <= i < |Trace(env, w, events[..k + 1]).log|
    && SuccessAt(env, events[k].c, events[k].a, log, |Trace(env, w, events[..k]).log|, i)
  }

  ghost predicate MadeByRun(env: Environment, w: Writer, events: seq<Event>, log: seq<Post>, i: nat) {
    exists k :: 0 <= k < |events| && MadeBy(env, w, events, k, log, i)
  }

  lemma SuccessStays(env: Environment, c: Contract, a: Authority, log: seq<Post>, log': seq<Post>, base: nat, i: nat)
    requires log <= log' && SuccessAt(env, c, a, log, base, i)
    ensures SuccessAt(env, c, a, log', base, i)
  {
    hide JustifiedSuccess;
    var j, from, until :| base <= j && RunOf(env, c, a, log, i, j, from, until);
    assert RunOf(env, c, a, log', i, j, from, until);
  }

  lemma MadeEarlier(env: Environment, w: Writer, events: seq<Event>, n: nat, log: seq<Post>, log': seq<Post>, i: nat)
    requires n <= |events| && log <= log' && MadeByRun(env, w, events[..n], log, i)
    ensures MadeByRun(env, w, events, log', i)
  {
    hide SuccessAt, Trace;
    var init := events[..n];
    var k :| 0 <= k < n && MadeBy(env, w, init, k, log, i);
    assert init[..k] == events[..k] && init[..k + 1] == events[..k + 1] && init[k] == events[k];
    SuccessStays(env, events[k].c, events[k].a, log, log', |Trace(env, w, events[..k]).log|, i);
    assert MadeBy(env, w, events, k, log', i);
  }

  /** The invariant of every trace: the log only grows, and each new success is justified by the run that made it. */
  lemma {:induction false} TraceKeepsSound(env: Environment, w: Writer, events: seq<Event>)
    requires AllLoaded(events) && Unbatched(w.s)
    ensures var w' := Trace(env, w, events);
            && w.log <= w'.log && Unbatched(w'.s)
            && forall i :: |w.log| <= i < |w'.log| && w'.log[i].state.Success? ==> MadeByRun(env, w, events, w'.log, i)
    decreases |events|
  {
    hide Loaded, Step, SuccessAt, MadeByRun;
    if events != [] {
      var n := |events| - 1;
      var init, last := events[..n], events[n];
      TraceKeepsSound(env, w, init);
      var before := Trace(env, w, init);
      StepIsSound(env, before, last);
      var log := Trace(env, w, events).log;
      forall i | |w.log| <= i < |log| && log[i].state.Success? ensures MadeByRun(env, w, events, log, i) {
        if i < |before.log| {
          assert log[i] == before.log[i];
          MadeEarlier(env, w, events, n, before.log, log, i);
        } else {
          MadeLast(env, w, events, i);
        }
      }
    }
  }

  lemma MadeLast(env: Environment, w: Writer, events: seq<Event>, i: nat)
    requires events != []
    requires var n, log := |events| - 1, Trace(env, w, events).log;
             var base := |Trace(env, w, events[..n]).log|;
             base <= i < |log| && SuccessAt(env, events[n].c, events[n].a, log, base, i)
    ensures MadeByRun(env, w, events, Trace(env, w, events).log, i)
  {
    hide SuccessAt, Trace;
    assert events[..|events|] == events;
    assert MadeBy(env, w, events, |events| - 1, Trace(env, w, events).log, i);
  }

  lemma {:induction false} VisibleIsLast(log: seq<Post>, head: string)
    ensures Visible(log, head).None? <==> forall i :: 0 <= i < |log| ==> log[i].head != head
    ensures Visible(log, head).Some? ==>
              exists i: nat :: LastPost(log, head, i) && log[i].state == Visible(log, head).value
    decreases |log|
  {
    if log != [] {
      var n := |log| - 1;
      if log[n].head == head {
        assert LastPost(log, head, n);
      } else {
        VisibleIsLast(log[..n], head);
        if Visible(log, head).Some? {
          var i: nat :| LastPost(log[..n], head, i) && log[..n][i].state == Visible(log[..n], head).value;
          assert log[i] == log[..n][i];
          assert LastPost(log, head, i);
        }
      }
    }
  }

  lemma {:induction false} VisibleUntouched(log: seq<Post>, log': seq<Post>, head: string)
    requires log <= log' && forall i :: |log| <= i < |log'| ==> log'[i].head != head
    ensures Visible(log', head) == Visible(log, head)
    decreases |log'|
  {
    if |log'| > |log| {
      VisibleUntouched(log, log'[..|log'| - 1], head);
    } else {
      assert log' == log;
    }
  }

  /** The status shows pending or failure, or a success that some run of the trace made and justifies. */
  ghost predicate SafeInTrace(env: Environment, w: Writer, events: seq<Event>, log: seq<Post>, head: string) {
    || Visible(log, head) in {Some(Pending), Some(Failure)}
    || (Visible(log, head) == Some(Success) && exists i :: LastPost(log, head, i) && MadeByRun(env, w, events, log, i))
  }

  /**
   Over every trace of serialized runs, each with the contract and authority it loaded, with GitHub
   changing at will and any call allowed to raise: once any post for a head has landed its status is
   safe, and until then it is what it was before.
   */
  lemma EveryTraceIsSafe(env: Environment, w: Writer, events: seq<Event>, head: string)
    requires AllLoaded(events) && Unbatched(w.s)
    ensures var log := Trace(env, w, events).log;
            if exists i :: |w.log| <= i < |log| && log[i].head == head
            then SafeInTrace(env, w, events, log, head)
            else Visible(log, head) == Visible(w.log, head)
  {
    hide Loaded, Trace, MadeByRun, Visible;
    TraceKeepsSound(env, w, events);
    var log := Trace(env, w, events).log;
    if i :| |w.log| <= i < |log| && log[i].head == head {
      VisibleIsLast(log, head);
      var last: nat :| LastPost(log, head, last) && log[last].state == Visible(log, head).value;
      assert i <= last;
      if log[last].state.Success? { assert MadeByRun(env, w, events, log, last); }
    } else {
      VisibleUntouched(w.log, log, head);
    }
  }
}
