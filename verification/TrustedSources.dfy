/**
 The inventory of trusted gate sources: a worklist that iterates over the very list it appends to.
 */
module TrustedSources {
  import opened Wrappers
  import opened Ordering
  import Text

  /** The regular files of the protected tree, and the references each one contains; reading may raise. */
  datatype Repository = Repository(regular: set<string>, references: string -> Result<seq<string>>)

  const BOUND := 1024

  predicate Safe(path: string) {
    (path == "" || path[0] != '/') && ".." !in Text.Split(path, '/')
  }

  /** A dependency that the inventory follows. */
  predicate Followed(repo: Repository, f: string, d: string) {
    repo.references(f).Ok? && d in repo.references(f).value && Safe(d) && d in repo.regular
  }

  /** Contains the regular initial files and whatever its members depend on. */
  ghost predicate Closed(repo: Repository, initial: seq<string>, s: set<string>) {
    && (forall p <- initial :: p in repo.regular ==> p in s)
    && (forall f, d :: f in s && Followed(repo, f, d) ==> d in s)
  }

  /** The least closed set. */
  ghost predicate Least(repo: Repository, initial: seq<string>, s: set<string>) {
    Closed(repo, initial, s) && forall t: set<string> :: Closed(repo, initial, t) ==> s <= t
  }

  predicate Distinct(s: seq<string>) { forall i, j :: 0 <= i < j < |s| ==> s[i] != s[j] }

  lemma {:induction false} DistinctFits(s: seq<string>, all: set<string>)
    requires Distinct(s) && forall x <- s :: x in all
    ensures |s| <= |all|
  {
    if s != [] {
      var n := |s| - 1;
      DistinctFits(s[..n], all - {s[n]});
    }
  }

  /** Everything on the list is an initial path or a regular file that every closed set contains. */
  ghost predicate QueueSound(repo: Repository, initial: seq<string>, queue: seq<string>) {
    && Distinct(queue)
    && (forall p <- initial :: p in queue)
    && (forall q <- queue :: q in initial || (q in repo.regular && Safe(q)))
    && (forall t: set<string>, q :: Closed(repo, initial, t) && q in queue && q in repo.regular ==> q in t)
  }

  method TrustedGateScripts(repo: Repository, initial: seq<string>) returns (r: Result<set<string>>)
    ensures r.Ok? ==> Least(repo, initial, r.value) && |r.value| <= BOUND && r.value <= repo.regular
    ensures r.Ok? ==> (forall p <- initial :: Safe(p)) && (forall f <- r.value :: repo.references(f).Ok?)
    ensures r.Err? ==>
              || (exists p <- initial :: !Safe(p))
              || (exists f <- repo.regular :: repo.references(f).Err?)
              || (forall t: set<string> :: Closed(repo, initial, t) ==> |t| >= BOUND)
  {
    hide StringLess, Safe, Progress, Closed;
    var found: set<string> := {};
    var queue := SortedSet(initial, StringLess);
    ghost var all := repo.regular + set p | p in initial;
    InitialQueue(repo, initial);
    Begun(repo, initial, queue);
    var i := 0;
    while i < |queue|
      invariant 0 <= i <= |queue|
      invariant Progress(repo, initial, queue, i, found)
      invariant |found| <= BOUND
      decreases |all| - i
    {
      QueueFits(repo, initial, queue, i, found);
      var relative := queue[i];
      if relative in found {
        SkipStep(repo, initial, queue, i, found);
        i := i + 1;
        continue;
      }
      if |found| >= BOUND {
        FoundIsNeeded(repo, initial, queue, i, found);
        return Err("trusted gate source graph exceeds safe static inspection bound");
      }
      if !Safe(relative) {
        UnsafeIsInitial(repo, initial, queue, i, found);
        return Err("unsafe trusted gate source");
      }
      if relative !in repo.regular {
        SkipStep(repo, initial, queue, i, found);
        i := i + 1;
        continue;
      }
      var references := repo.references(relative);
      if references.Err? {
        return Err(references.error);
      }
      Sound(repo, initial, queue, i, found);
      var longer := Enqueue(repo, initial, queue, relative, references.value);
      TakeStep(repo, initial, queue, longer, i, found);
      found := found + {relative};
      queue := longer;
      i := i + 1;
    }
    Finished(repo, initial, queue, found);
    r := Ok(found);
  }

  /** The first `i` entries of the list have been visited and `found` holds the regular ones. */
  ghost predicate Progress(repo: Repository, initial: seq<string>, queue: seq<string>, i: nat, found: set<string>) {
    && i <= |queue|
    && QueueSound(repo, initial, queue)
    && (forall f :: f in found <==> f in repo.regular && f in queue[..i])
    && (forall k :: 0 <= k < i ==> Safe(queue[k]))
    && (forall f <- found :: repo.references(f).Ok?)
    && (forall f, d :: f in found && Followed(repo, f, d) ==> d in queue)
  }

  lemma Begun(repo: Repository, initial: seq<string>, queue: seq<string>)
    requires QueueSound(repo, initial, queue)
    ensures Progress(repo, initial, queue, 0, {})
  {
  }

  lemma Sound(repo: Repository, initial: seq<string>, queue: seq<string>, i: nat, found: set<string>)
    requires Progress(repo, initial, queue, i, found)
    ensures QueueSound(repo, initial, queue)
  {
  }

  lemma QueueFits(repo: Repository, initial: seq<string>, queue: seq<string>, i: nat, found: set<string>)
    requires Progress(repo, initial, queue, i, found)
    ensures |queue| <= |repo.regular + set p | p in initial|
  {
    DistinctFits(queue, repo.regular + set p | p in initial);
  }

  lemma SkipStep(repo: Repository, initial: seq<string>, queue: seq<string>, i: nat, found: set<string>)
    requires Progress(repo, initial, queue, i, found) && i < |queue|
    requires queue[i] in found || (Safe(queue[i]) && queue[i] !in repo.regular)
    ensures Progress(repo, initial, queue, i + 1, found)
  {
    hide QueueSound, Followed, Safe;
    assert queue[..i + 1] == queue[..i] + [queue[i]];
    assert Safe(queue[i]) by {
      if queue[i] in found {
        var k :| 0 <= k < i && queue[..i][k] == queue[i];
        assert queue[k] == queue[i];
      }
    }
  }

  lemma TakeStep(repo: Repository, initial: seq<string>, queue: seq<string>, longer: seq<string>, i: nat,
                 found: set<string>)
    requires Progress(repo, initial, queue, i, found) && i < |queue|
    requires Safe(queue[i]) && queue[i] in repo.regular && repo.references(queue[i]).Ok?
    requires queue <= longer && QueueSound(repo, initial, longer)
    requires forall d :: Followed(repo, queue[i], d) ==> d in longer
    ensures Progress(repo, initial, longer, i + 1, found + {queue[i]})
  {
    hide QueueSound, Followed, Safe;
    assert longer[..i + 1] == queue[..i] + [queue[i]];
    assert forall q :: q in queue ==> q in longer;
  }

  lemma UnsafeIsInitial(repo: Repository, initial: seq<string>, queue: seq<string>, i: nat, found: set<string>)
    requires Progress(repo, initial, queue, i, found) && i < |queue| && !Safe(queue[i])
    ensures queue[i] in initial
  {
    hide Safe, Closed;
    assert queue[i] in queue;
  }

  lemma Finished(repo: Repository, initial: seq<string>, queue: seq<string>, found: set<string>)
    requires Progress(repo, initial, queue, |queue|, found)
    ensures Least(repo, initial, found) && found <= repo.regular
    ensures (forall p <- initial :: Safe(p)) && (forall f <- found :: repo.references(f).Ok?)
  {
    hide Safe;
    assert queue[..|queue|] == queue;
    forall p | p in initial ensures Safe(p) {
      assert p in queue;
    }
    forall f, d | f in found && Followed(repo, f, d) ensures d in found {
      assert d in queue;
    }
  }

  lemma InitialQueue(repo: Repository, initial: seq<string>)
    ensures QueueSound(repo, initial, SortedSet(initial, StringLess))
  {
    hide StringLess, Safe;
    StringsOrdered();
    SortedSetCorrect(initial, StringLess);
    var queue := SortedSet(initial, StringLess);
    forall i, j | 0 <= i < j < |queue| ensures queue[i] != queue[j] {
      AscendingInjective(queue, StringLess, i, j);
    }
  }

  lemma FoundIsNeeded(repo: Repository, initial: seq<string>, queue: seq<string>, i: nat, found: set<string>)
    requires Progress(repo, initial, queue, i, found)
    ensures forall t: set<string> :: Closed(repo, initial, t) ==> |t| >= |found|
  {
    hide Closed, Safe;
    forall t: set<string> | Closed(repo, initial, t) ensures |t| >= |found| {
      forall f | f in found ensures f in t {
        assert f in queue;
      }
      SubsetSize(found, t);
    }
  }

  lemma SubsetSize<T>(a: set<T>, b: set<T>)
    requires a <= b
    ensures |a| <= |b|
  {
    assert b == a + (b - a);
  }

  /** Appends the safe regular references of a file that are not on the list yet. */
  method Enqueue(repo: Repository, ghost initial: seq<string>, queue: seq<string>, ghost f: string,
                 references: seq<string>)
    returns (longer: seq<string>)
    requires QueueSound(repo, initial, queue) && f in queue && f in repo.regular
    requires repo.references(f) == Ok(references)
    ensures queue <= longer && QueueSound(repo, initial, longer)
    ensures forall d :: Followed(repo, f, d) ==> d in longer
  {
    hide StringLess, Safe;
    var sorted := SortedSet(references, StringLess);
    assert forall d :: d in sorted <==> d in references by {
      StringsOrdered();
      SortedSetCorrect(references, StringLess);
    }
    longer := queue;
    for k := 0 to |sorted|
      invariant queue <= longer && QueueSound(repo, initial, longer)
      invariant forall j :: 0 <= j < k && Followed(repo, f, sorted[j]) ==> sorted[j] in longer
    {
      var d := sorted[k];
      if !Safe(d) || d in longer { continue; }
      if d in repo.regular {
        assert d in references;
        EnqueueOne(repo, initial, longer, f, d);
        longer := longer + [d];
      }
    }
    forall d | Followed(repo, f, d) ensures d in longer {
      assert d in sorted;
    }
  }

  lemma EnqueueOne(repo: Repository, initial: seq<string>, queue: seq<string>, f: string, d: string)
    requires QueueSound(repo, initial, queue) && f in queue && f in repo.regular
    requires Followed(repo, f, d) && d !in queue
    ensures QueueSound(repo, initial, queue + [d])
  {
    var longer := queue + [d];
    forall t: set<string>, q | Closed(repo, initial, t) && q in longer && q in repo.regular ensures q in t {
      assert f in t;
    }
  }
}
