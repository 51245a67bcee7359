/** The batch caches change no verdict, keep the inventories of a pass consistent, and hide no file. */
module EvaluationBatch {
  import opened Wrappers
  import opened Ordering
  import opened Pagination
  import opened Routing
  import opened Runs
  import opened GitHub
  import opened Evaluation
  import opened EvaluationSoundness
  import Sharding

  // ---------------------------------------------------------------- one fetched list per pass

  lemma {:induction false} NamesCover(files: seq<FileEntry>)
    requires Names(files, true).Ok?
    ensures Names(files, false).Ok? && forall p <- Names(files, false).value :: p in Names(files, true).value
  {
    if files != [] { NamesCover(files[1..]); }
  }

  /** The rename-aware projection of a list of file entries covers the plain one. */
  lemma ProjectionCovers(files: seq<FileEntry>)
    requires PathsOf(files, true).Ok?
    ensures PathsOf(files, false).Ok? && Covers(PathsOf(files, true).value, PathsOf(files, false).value)
  {
    hide Names, SortedSet, StringLess;
    NamesCover(files);
    StringsOrdered();
    SortedSetCorrect(Names(files, true).value, StringLess);
    SortedSetCorrect(Names(files, false).value, StringLess);
  }

  /** In a batch, every later read of the files of a PR returns the list that was fetched first. */
  lemma FetchedOnce(env: Environment, s: Session, later: Session, pr: nat)
    requires s.files.Some? && GetFiles(env, s, pr).result.Ok? && Extends(GetFiles(env, s, pr).s, later)
    ensures GetFiles(env, later, pr) == Reply(GetFiles(env, s, pr).result, later)
  {
    hide FilesAt;
  }

  /** In a batch the subset guards can never fail, whatever happens on GitHub between the reads. */
  lemma GuardsNeverFail(env: Environment, s: Session, later: Session, pr: nat)
    requires s.files.Some? && GetPaths(env, s, pr, false).result.Ok? && Extends(GetPaths(env, s, pr, false).s, later)
    ensures var wide := GetPaths(env, later, pr, true);
            && wide.s == later
            && (wide.result.Ok? ==> Covers(wide.result.value, GetPaths(env, s, pr, false).result.value))
  {
    hide GetFiles, PathsOf, Extends, Covers;
    FetchedOnce(env, s, later, pr);
    var files := GetFiles(env, s, pr).result.value;
    if PathsOf(files, true).Ok? { ProjectionCovers(files); }
  }

  /** In a batch, the job mode of the v0.9 gate is decided on exactly the paths that the rename guard saw. */
  lemma JobPathsAreOriginal(env: Environment, s: Session, later: Session, m: Matter, id: string)
    requires s.files.Some? && GetPaths(env, s, m.pr, false).result == Ok(m.changed)
    requires Extends(GetPaths(env, s, m.pr, false).s, later)
    requires GetPaths(env, GetPaths(env, s, m.pr, false).s, m.pr, true).result.Ok?
    ensures GetJobPaths(env, later, m, id) ==
            Reply(if IsV09(id) then GetPaths(env, GetPaths(env, s, m.pr, false).s, m.pr, true).result
                  else Ok(m.changed),
                  later)
  {
    hide GetFiles, PathsOf, Covers, IsV09;
    var first := GetPaths(env, s, m.pr, false).s;
    ExtendsReflexive(first);
    FetchedOnce(env, s, first, m.pr);
    FetchedOnce(env, s, later, m.pr);
    GuardsNeverFail(env, s, later, m.pr);
  }

  lemma ExtendsReflexive(s: Session)
    ensures Extends(s, s)
  {
  }

  function OneFile(name: string): seq<FileEntry> { [FileEntry(Some(name), "modified", None)] }

  function OneFileWorld(name: string): Snapshot { Snapshot(map[], map[1 := OneFile(name)], map[], map[], map[], map[]) }

  /** Outside a batch they can: a push between the two reads replaces one changed file by another. */
  lemma GuardCanFailOutsideBatch(name: string, other: string) returns (env: Environment, s: Session)
    requires name != "" && other != "" && name != other
    ensures s.files.None? && GetPaths(env, s, 1, false).result == Ok([name])
    ensures var wide := GetPaths(env, GetPaths(env, s, 1, false).s, 1, true).result;
            wide.Ok? && !Covers(wide.value, [name])
  {
    env := Environment(t => if t < LIST then OneFileWorld(name) else OneFileWorld(other), t => true, t => Landed,
                       t => false);
    s := Session(0, None, None);
    OneFilePaths(env, 0, name, false);
    OneFilePaths(env, LIST, other, true);
    assert GetPaths(env, s, 1, false).s == Session(LIST, None, None);
    assert name in [name] && name !in [other];
  }

  lemma OneFilePaths(env: Environment, t: nat, name: string, wide: bool)
    requires name != "" && env.up(t + 1) && env.world(t + 1) == OneFileWorld(name)
    ensures FilesAt(env, t, 1) == Ok(OneFile(name)) && PathsOf(OneFile(name), wide) == Ok([name])
  {
    var files := OneFile(name);
    assert PageOf(files, 1) == files;
    assert files[1..] == [];
    assert Names(files[1..], wide) == Ok([]) && EntryNames(files[0], wide) == Ok([name]) && [name] + [] == [name];
    assert [name][..0] == [];
    assert SortedSet([], StringLess) == [];
  }

  // ---------------------------------------------------------------- a frozen world

  function FilesIn(w: Snapshot, pr: nat): Result<seq<FileEntry>> { Fetched(Serving(SeqAt(w.files, pr)), 1, true) }

  function JobsIn(w: Snapshot, run: nat): Result<seq<Job>> { Fetched(Serving(SeqAt(w.jobs, run)), 1, false) }

  function RunsIn(w: Snapshot, head: string): Result<seq<Run>> { Fetched(Serving(SeqAt(w.runs, head)), 1, false) }

  lemma FilesFrozen(env: Environment, w: Snapshot, s: Session, pr: nat)
    requires Frozen(env, w) && CachesObserved(env, 0, s)
    ensures GetFiles(env, s, pr).result == FilesIn(w, pr) && CachesObserved(env, 0, GetFiles(env, s, pr).s)
  {
    hide Frozen, FilesIn, JobsAt;
    FilesObserved(env, 0, s, pr);
    FilesAtFrozen(env, w, s.clock, pr);
    if s.files.Some? && pr in s.files.value {
      var t :| 0 <= t < s.clock && FilesAt(env, t, pr) == Ok(s.files.value[pr]);
      FilesAtFrozen(env, w, t, pr);
    }
  }

  lemma FilesAtFrozen(env: Environment, w: Snapshot, t: nat, pr: nat)
    requires Frozen(env, w)
    ensures FilesAt(env, t, pr) == FilesIn(w, pr)
  {
    hide Frozen, Observed;
    ObservedFrozen(env, w, t, (w: Snapshot) => SeqAt(w.files, pr), true);
  }

  lemma JobsAtFrozen(env: Environment, w: Snapshot, t: nat, run: nat)
    requires Frozen(env, w)
    ensures JobsAt(env, t, run) == JobsIn(w, run)
  {
    hide Frozen, Observed;
    ObservedFrozen(env, w, t, (w: Snapshot) => SeqAt(w.jobs, run), false);
  }

  lemma RunsAtFrozen(env: Environment, w: Snapshot, t: nat, head: string)
    requires Frozen(env, w)
    ensures RunsAt(env, t, head) == RunsIn(w, head)
  {
    hide Frozen, Observed;
    ObservedFrozen(env, w, t, (w: Snapshot) => SeqAt(w.runs, head), false);
  }

  lemma JobsFrozen(env: Environment, w: Snapshot, s: Session, run: Run)
    requires Frozen(env, w) && CachesObserved(env, 0, s)
    ensures GetJobs(env, s, run).result == JobsIn(w, run.id) && CachesObserved(env, 0, GetJobs(env, s, run).s)
  {
    hide Frozen, JobsIn, FilesAt;
    JobsObserved(env, 0, s, run);
    JobsAtFrozen(env, w, s.clock, run.id);
    var key := (run.id, Attempt(run));
    if s.jobs.Some? && key in s.jobs.value {
      var t :| 0 <= t < s.clock && JobsAt(env, t, key.0) == Ok(s.jobs.value[key]);
      JobsAtFrozen(env, w, t, run.id);
    }
  }

  /** Two sessions in the same world, with whatever they have cached so far. */
  ghost predicate Twins(env: Environment, s: Session, s': Session) {
    CachesObserved(env, 0, s) && CachesObserved(env, 0, s')
  }

  lemma TwinsTick(env: Environment, s: Session, s': Session, n: nat, n': nat)
    requires Twins(env, s, s')
    ensures Twins(env, Tick(s, n), Tick(s', n'))
  {
    hide CachesObserved;
    ObservedLater(env, 0, s, n);
    ObservedLater(env, 0, s', n');
  }

  lemma PathsTwin(env: Environment, w: Snapshot, s: Session, s': Session, pr: nat, wide: bool)
    requires Frozen(env, w) && Twins(env, s, s')
    ensures var (r, r') := (GetPaths(env, s, pr, wide), GetPaths(env, s', pr, wide));
            r.result == r'.result && Twins(env, r.s, r'.s)
  {
    hide Frozen, CachesObserved, GetFiles, PathsOf, FilesIn;
    FilesFrozen(env, w, s, pr);
    FilesFrozen(env, w, s', pr);
  }

  lemma JobsTwin(env: Environment, w: Snapshot, s: Session, s': Session, gate: Gate, run: Run, a: Authority,
                 paths: seq<string>)
    requires Frozen(env, w) && Twins(env, s, s')
    ensures var (r, r') := (GetJobsVerdict(env, s, gate, run, a, paths), GetJobsVerdict(env, s', gate, run, a, paths));
            r.result == r'.result && Twins(env, r.s, r'.s)
  {
    hide Frozen, CachesObserved, GetJobs, JobsVerdict, JobsIn;
    JobsFrozen(env, w, s, run);
    JobsFrozen(env, w, s', run);
  }

  lemma CheckJobsTwin(env: Environment, w: Snapshot, s: Session, s': Session, m: Matter, gate: Gate, run: Run)
    requires Frozen(env, w) && Twins(env, s, s')
    ensures var (r, r') := (CheckJobs(env, s, m, gate, run), CheckJobs(env, s', m, gate, run));
            r.0 == r'.0 && Twins(env, r.1, r'.1)
  {
    hide Frozen, Twins, GetPaths, GetJobsVerdict, IsV09, Covers;
    PathsTwin(env, w, s, s', m.pr, true);
    var p, p' := GetJobPaths(env, s, m, gate.id), GetJobPaths(env, s', m, gate.id);
    if p.result.Ok? { JobsTwin(env, w, p.s, p'.s, gate, run, m.a, p.result.value); }
  }

  lemma JudgeTwin(env: Environment, w: Snapshot, s: Session, s': Session, m: Matter, gate: Gate)
    requires Frozen(env, w) && Twins(env, s, s')
    ensures var (r, r') := (Judge(env, s, m, gate), Judge(env, s', m, gate)); r.0 == r'.0 && Twins(env, r.1, r'.1)
  {
    hide Frozen, Twins, CheckJobs, Newest, HasStaleRun, SupportedConclusion;
    var newest := Newest(m.runs, TargetOf(m, gate));
    if newest.Some? { CheckJobsTwin(env, w, s, s', m, gate, newest.value); }
  }

  lemma {:induction false} LoopTwin(env: Environment, w: Snapshot, s: Session, s': Session, m: Matter, ids: seq<string>)
    requires Frozen(env, w) && Twins(env, s, s') && AllKnown(m.gates, ids)
    ensures var (r, r') := (JudgeAll(env, s, m, ids), JudgeAll(env, s', m, ids)); r.0 == r'.0 && Twins(env, r.1, r'.1)
    decreases |ids|
  {
    hide Frozen, CachesObserved, Judge, Known;
    if ids != [] {
      var n := |ids| - 1;
      LoopTwin(env, w, s, s', m, ids[..n]);
      JudgeTwin(env, w, JudgeAll(env, s, m, ids[..n]).1, JudgeAll(env, s', m, ids[..n]).1, m, GateOf(m.gates, ids[n]));
    }
  }

  lemma OriginalTwin(env: Environment, w: Snapshot, s: Session, s': Session, c: Contract, pr: nat, head: string,
                     pull: PullRequest, changed: seq<string>, required: seq<string>)
    requires Frozen(env, w) && Twins(env, s, s')
    ensures var r := GetOriginal(env, s, c, pr, head, pull, changed, required);
            var r' := GetOriginal(env, s', c, pr, head, pull, changed, required);
            r.result == r'.result && Twins(env, r.s, r'.s)
  {
    hide Frozen, Twins, GetPaths, Required, Covers;
    PathsTwin(env, w, s, s', pr, true);
  }

  lemma PullTwin(env: Environment, w: Snapshot, s: Session, s': Session, pr: nat)
    requires Frozen(env, w) && Twins(env, s, s')
    ensures var (r, r') := (GetPull(env, s, pr), GetPull(env, s', pr)); r.result == r'.result && Twins(env, r.s, r'.s)
  {
    hide Twins;
    TwinsTick(env, s, s', 1, 1);
  }

  lemma ScopeTwin(env: Environment, w: Snapshot, s: Session, s': Session, c: Contract, pr: nat, head: string)
    requires Frozen(env, w) && Twins(env, s, s')
    ensures var (r, r') := (GetScope(env, s, c, pr, head), GetScope(env, s', c, pr, head));
            r.result == r'.result && Twins(env, r.s, r'.s)
  {
    hide Frozen, Twins, GetPull, GetPaths, GetOriginal, Required, Distinct;
    PullTwin(env, w, s, s', pr);
    var p, p' := GetPull(env, s, pr), GetPull(env, s', pr);
    PathsTwin(env, w, p.s, p'.s, pr, false);
    var paths, paths' := GetPaths(env, p.s, pr, false), GetPaths(env, p'.s, pr, false);
    if p.result.Ok? && paths.result.Ok? && Required(c, paths.result.value).Ok? {
      OriginalTwin(env, w, paths.s, paths'.s, c, pr, head, p.result.value, paths.result.value,
                   Required(c, paths.result.value).value);
    }
  }

  lemma MergeTwin(env: Environment, w: Snapshot, s: Session, s': Session, pull: PullRequest, head: string)
    requires Frozen(env, w) && Twins(env, s, s')
    ensures var (r, r') := (GetTestMerge(env, s, pull, head), GetTestMerge(env, s', pull, head));
            r.result == r'.result && Twins(env, r.s, r'.s)
  {
    hide CachesObserved, MergeCandidate;
    TwinsTick(env, s, s', 1, 1);
  }

  /** The approval of an authority change does not depend on when it is asked for. */
  ghost predicate FrozenAuthority(a: Authority) {
    forall t, t', pr, edits :: a.approved(t, pr, edits) == a.approved(t', pr, edits)
  }

  lemma TrustedTwin(env: Environment, s: Session, s': Session, a: Authority, pr: nat, original: seq<string>)
    requires FrozenAuthority(a) && Twins(env, s, s')
    ensures var (r, r') := (GetTrusted(s, a, pr, original), GetTrusted(s', a, pr, original));
            r.result == r'.result && Twins(env, r.s, r'.s)
  {
    hide CachesObserved;
    TwinsTick(env, s, s', 1, 1);
  }

  /** A run list that is either read now or was read before. */
  ghost predicate RunListOf(w: Snapshot, head: string, snapshot: Option<seq<Run>>) {
    snapshot.Some? ==> RunsIn(w, head) == Ok(snapshot.value)
  }

  lemma RunsTwin(env: Environment, w: Snapshot, s: Session, s': Session, head: string, snapshot: Option<seq<Run>>,
                 snapshot': Option<seq<Run>>)
    requires Frozen(env, w) && Twins(env, s, s') && RunListOf(w, head, snapshot) && RunListOf(w, head, snapshot')
    ensures var (r, r') := (RunsFor(env, s, head, snapshot), RunsFor(env, s', head, snapshot'));
            r.result == r'.result && Twins(env, r.s, r'.s)
  {
    hide Frozen, CachesObserved, RunsIn, RunsAt;
    RunsAtFrozen(env, w, s.clock, head);
    RunsAtFrozen(env, w, s'.clock, head);
    TwinsTick(env, s, s', 0, 0);
    TwinsTick(env, s, s', LIST, 0);
    TwinsTick(env, s, s', 0, LIST);
    TwinsTick(env, s, s', LIST, LIST);
  }

  /**
   On a frozen world an evaluation with batch caches and a shared run list returns what one without
   them returns, whatever the caches already hold.
   */
  lemma CachesAgree(env: Environment, w: Snapshot, s: Session, s': Session, c: Contract, a: Authority, pr: nat,
                    head: string, snapshot: Option<seq<Run>>, snapshot': Option<seq<Run>>)
    requires Frozen(env, w) && FrozenAuthority(a) && Twins(env, s, s')
    requires RunListOf(w, head, snapshot) && RunListOf(w, head, snapshot')
    ensures var (r, r') := (Evaluate(env, s, c, a, pr, head, snapshot), Evaluate(env, s', c, a, pr, head, snapshot'));
            r.result == r'.result && Twins(env, r.s, r'.s)
  {
    hide Frozen, FrozenAuthority, Twins, RunListOf, GetScope, GetTestMerge, GetTrusted, RunsFor, AllKnown, JudgeAll,
         Sharding.IsSha;
    ScopeTwin(env, w, s, s', c, pr, head);
    var scope, scope' := GetScope(env, s, c, pr, head), GetScope(env, s', c, pr, head);
    RequiredKnown(env, s, c, pr, head);
    if scope.result.Ok? && scope.result.value.Scoped? {
      var Scoped(pull, changed, original, required) := scope.result.value;
      TrustedTwin(env, scope.s, scope'.s, a, pr, original);
      var trusted, trusted' := GetTrusted(scope.s, a, pr, original), GetTrusted(scope'.s, a, pr, original);
      MergeTwin(env, w, trusted.s, trusted'.s, pull, head);
      var merge, merge' := GetTestMerge(env, trusted.s, pull, head), GetTestMerge(env, trusted'.s, pull, head);
      RunsTwin(env, w, merge.s, merge'.s, head, snapshot, snapshot');
      var runs, runs' := RunsFor(env, merge.s, head, snapshot), RunsFor(env, merge'.s, head, snapshot');
      if merge.result.Ok? && runs.result.Ok? {
        LoopTwin(env, w, runs.s, runs'.s, Matter(c.gates, a, pr, head, changed, merge.result.value, runs.result.value),
                 required);
      }
    }
  }

  // ---------------------------------------------------------------- no truncated inventory

  /** The diff of the PR does not change, and the PR declares how many entries it has. */
  ghost predicate Declares(env: Environment, pr: nat, entries: seq<FileEntry>) {
    forall t :: SeqAt(env.world(t).files, pr) == entries
                && (pr in env.world(t).pulls ==> env.world(t).pulls[pr].changedFiles == Some(|entries|))
  }

  lemma {:induction false} FetchedPartial<T>(a: Server<T>, b: Server<T>, page: nat, files: bool)
    requires 1 <= page <= LAST_PAGE && (forall p :: page <= p && a(p).Ok? ==> a(p) == b(p))
    requires Fetched(a, page, files).Ok?
    ensures Fetched(a, page, files) == Fetched(b, page, files)
    decreases LAST_PAGE - page
  {
    assert a(page) == b(page);
    if |a(page).value| >= PAGE && page + 1 <= LAST_PAGE && !(page == LAST_FILES_PAGE && files) {
      FetchedPartial(a, b, page + 1, files);
    }
  }

  lemma FilesWhole(env: Environment, t: nat, pr: nat, entries: seq<FileEntry>)
    requires Declares(env, pr, entries) && |entries| <= 3000 && FilesAt(env, t, pr).Ok?
    ensures FilesAt(env, t, pr) == Ok(entries)
  {
    hide Fetched;
    var read := (w: Snapshot) => SeqAt(w.files, pr);
    var server := ListServer(env, t, read);
    assert Fetched(server, 1, true) == FilesAt(env, t, pr);
    forall p | 1 <= p && server(p).Ok? ensures server(p) == Serving(entries)(p) {
      assert read(env.world(t + p)) == entries;
    }
    FetchedPartial(server, Serving(entries), 1, true);
    PaginationBounds(entries);
  }

  /** When the declared count is honest, an evaluation that gets past the scope saw every entry of the diff. */
  lemma NeverTruncated(env: Environment, start: nat, s: Session, c: Contract, pr: nat, head: string,
                       entries: seq<FileEntry>)
    requires start <= s.clock && CachesObserved(env, start, s) && Declares(env, pr, entries)
    ensures var scope := GetScope(env, s, c, pr, head).result;
            scope.Ok? ==>
              if scope.value.Scoped?
              then |entries| <= 3000 && PathsOf(entries, false) == Ok(scope.value.changed)
                   && PathsOf(entries, true) == Ok(scope.value.original) && |scope.value.changed| == |entries|
              else scope.value.e.state.Failure?
  {
    hide CachesObserved, PathsOf, GetPaths, Required, Distinct, Covers, FilesAt;
    var scope := GetScope(env, s, c, pr, head).result;
    var e := ScopeSound(env, start, s, c, pr, head);
    if scope.Ok? && scope.value.Scoped? {
      assert e.pull.changedFiles == Some(|entries|);
      FilesWhole(env, e.filesAt, pr, entries);
      FilesWhole(env, e.sourcesAt, pr, entries);
    }
  }
}
