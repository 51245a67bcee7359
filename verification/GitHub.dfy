/**
 GitHub as the qualification tool sees it.  PRs open, close, move or change base, runs appear and
 are rerun, at any time: the world is an arbitrary function of a clock that every request advances,
 so two reads may see two different worlds, and any request may raise.
 */
module GitHub {
  import opened Wrappers
  import opened Pagination
  import opened Runs

  datatype Head = Head(sha: Option<string>, branch: Option<string>, repo: Option<int>)

  datatype Base = Base(branch: Option<string>, sha: Option<string>, repo: Option<int>)

  /** A field whose absence the tool tells apart from a value of the wrong type. */
  datatype Field = Missing | Malformed | Given(text: string)

  /** A PR; any other field that is missing or of the wrong type is `None`. */
  datatype PullRequest = PullRequest(state: Field, head: Option<Head>, base: Option<Base>,
                                     merge: Option<string>, changedFiles: Option<int>)

  datatype Commit = Commit(sha: Option<string>, parents: seq<Option<string>>)

  datatype FileEntry = FileEntry(filename: Option<string>, status: string, previous: Option<string>)

  datatype Job = Job(name: Option<string>, status: Option<string>, conclusion: Option<string>)

  datatype Association = Association(state: Option<string>, number: Option<int>)

  datatype Snapshot = Snapshot(
    pulls: map<nat, PullRequest>,
    files: map<nat, seq<FileEntry>>,
    commits: map<string, Commit>,
    runs: map<string, seq<Run>>,
    jobs: map<nat, seq<Job>>,
    associations: map<string, seq<Association>>)

  /** The state of a commit status. */
  datatype State = Success | Pending | Failure

  datatype Post = Post(head: string, state: State, at: nat)

  /** One attempt to post a status: if it answers it has landed; if it fails it may have landed or not. */
  datatype Posting = Landed | Lost | LandedButRaised

  /** What GitHub shows and does at each time, and whether a failed attempt at that time may be repeated. */
  datatype Environment = Environment(world: nat -> Snapshot, up: nat -> bool, posting: nat -> Posting,
                                     retry: nat -> bool)

  const ATTEMPTS := 3

  // ---------------------------------------------------------------- requests

  function SeqAt<K(==), V>(m: map<K, seq<V>>, k: K): seq<V> { if k in m then m[k] else [] }

  /** A list request that starts at time `t`: page `p` is read at time `t + p`. */
  function ListServer<T>(env: Environment, t: nat, read: Snapshot -> seq<T>): (server: Server<T>) {
    p => if p >= 1 && env.up(t + p) then Ok(PageOf(read(env.world(t + p)), p)) else Err("GitHub API unavailable")
  }

  /** The list that a request starting at time `t` observes. */
  function Observed<T>(env: Environment, t: nat, read: Snapshot -> seq<T>, files: bool): (r: Result<seq<T>>) {
    Fetched(ListServer(env, t, read), 1, files)
  }

  function FilesAt(env: Environment, t: nat, pr: nat): (r: Result<seq<FileEntry>>) {
    Observed(env, t, (w: Snapshot) => SeqAt(w.files, pr), true)
  }

  function RunsAt(env: Environment, t: nat, head: string): (r: Result<seq<Run>>) {
    Observed(env, t, (w: Snapshot) => SeqAt(w.runs, head), false)
  }

  function JobsAt(env: Environment, t: nat, run: nat): (r: Result<seq<Job>>) {
    Observed(env, t, (w: Snapshot) => SeqAt(w.jobs, run), false)
  }

  function AssociationsAt(env: Environment, t: nat, head: string): (r: Result<seq<Association>>) {
    Observed(env, t, (w: Snapshot) => SeqAt(w.associations, head), false)
  }

  function PullAt(env: Environment, t: nat, pr: nat): (r: Result<PullRequest>) {
    if !env.up(t) then Err("GitHub API unavailable")
    else if pr in env.world(t).pulls then Ok(env.world(t).pulls[pr])
    else Err("GitHub API 404")
  }

  function CommitAt(env: Environment, t: nat, sha: string): (r: Result<Commit>) {
    if !env.up(t) then Err("GitHub API unavailable")
    else if sha in env.world(t).commits then Ok(env.world(t).commits[sha])
    else Err("GitHub API 404")
  }

  /** How far a list request moves the clock: past every page it may have read. */
  const LIST := LAST_PAGE + 1

  /** A frozen world: nothing changes and nothing raises. */
  ghost predicate Frozen(env: Environment, w: Snapshot) {
    forall t :: env.world(t) == w && env.up(t)
  }

  /** In a frozen world every list request observes the same list, whenever it is made. */
  lemma ObservedFrozen<T>(env: Environment, w: Snapshot, t: nat, read: Snapshot -> seq<T>, files: bool)
    requires Frozen(env, w)
    ensures Observed(env, t, read, files) == Fetched(Serving(read(w)), 1, files)
  {
    FetchedAgree(ListServer(env, t, read), Serving(read(w)), 1, files);
  }

  lemma {:induction false} FetchedAgree<T>(a: Server<T>, b: Server<T>, page: nat, files: bool)
    requires 1 <= page <= LAST_PAGE && forall p :: page <= p ==> a(p) == b(p)
    ensures Fetched(a, page, files) == Fetched(b, page, files)
    decreases LAST_PAGE - page
  {
    if page + 1 <= LAST_PAGE { FetchedAgree(a, b, page + 1, files); }
  }

  // ---------------------------------------------------------------- a client with its batch caches

  type FileCache = Option<map<nat, seq<FileEntry>>>
  type JobCache = Option<map<(nat, nat), seq<Job>>>

  /** The state of a client between two requests; a cache is `None` outside a batch. */
  datatype Session = Session(clock: nat, files: FileCache, jobs: JobCache)

  datatype Reply<T> = Reply(result: Result<T>, s: Session)

  /** A client together with the posts that have landed. */
  datatype Writer = Writer(s: Session, log: seq<Post>)

  /** The log after one attempt. */
  function Attempted(env: Environment, w: Writer, head: string, state: State): (r: Writer) {
    Writer(Tick(w.s, 1), if env.posting(w.s.clock).Lost? then w.log else w.log + [Post(head, state, w.s.clock)])
  }

  /** A post with as many attempts as are left; the first component tells whether the call raises. */
  function Publish(env: Environment, w: Writer, head: string, state: State, left: nat := ATTEMPTS): (r: (bool, Writer))
    requires left > 0
    decreases left
  {
    var w1 := Attempted(env, w, head, state);
    if env.posting(w.s.clock).Landed? then (false, w1)
    else if env.retry(w.s.clock) && left > 1 then Publish(env, w1, head, state, left - 1)
    else (true, w1)
  }

  /** Copies of one post, all made in the given window. */
  ghost predicate Copies(posts: seq<Post>, head: string, state: State, from: nat, until: nat) {
    forall i :: 0 <= i < |posts| ==> posts[i].head == head && posts[i].state == state && from <= posts[i].at < until
  }

  /** A post only adds copies of itself, and one that does not raise adds at least one. */
  lemma {:induction false} PublishMeans(env: Environment, w: Writer, head: string, state: State, left: nat)
    returns (posts: seq<Post>)
    requires left > 0
    ensures var (raised, w') := Publish(env, w, head, state, left);
            && w'.log == w.log + posts && |posts| <= left && (!raised ==> posts != [])
            && w.s.clock < w'.s.clock && w'.s == w.s.(clock := w'.s.clock)
            && Copies(posts, head, state, w.s.clock, w'.s.clock)
    decreases left
  {
    var w1 := Attempted(env, w, head, state);
    var first := if env.posting(w.s.clock).Lost? then [] else [Post(head, state, w.s.clock)];
    posts := first;
    if !env.posting(w.s.clock).Landed? && env.retry(w.s.clock) && left > 1 {
      var rest := PublishMeans(env, w1, head, state, left - 1);
      posts := first + rest;
    }
  }

  function Tick(s: Session, n: nat): Session { s.(clock := s.clock + n) }

  function GetPull(env: Environment, s: Session, pr: nat): Reply<PullRequest> {
    Reply(PullAt(env, s.clock, pr), Tick(s, 1))
  }

  function GetCommit(env: Environment, s: Session, sha: string): Reply<Commit> {
    Reply(CommitAt(env, s.clock, sha), Tick(s, 1))
  }

  function GetRuns(env: Environment, s: Session, head: string): Reply<seq<Run>> {
    Reply(RunsAt(env, s.clock, head), Tick(s, LIST))
  }

  function GetAssociations(env: Environment, s: Session, head: string): Reply<seq<Association>> {
    Reply(AssociationsAt(env, s.clock, head), Tick(s, LIST))
  }

  /** The files of a PR, from the batch cache when there is one and it has them. */
  function GetFiles(env: Environment, s: Session, pr: nat): (r: Reply<seq<FileEntry>>) {
    if s.files.Some? && pr in s.files.value then Reply(Ok(s.files.value[pr]), s)
    else
      var read := FilesAt(env, s.clock, pr);
      var next := Tick(s, LIST);
      Reply(read, if read.Ok? && s.files.Some? then next.(files := Some(s.files.value[pr := read.value])) else next)
  }

  function Attempt(run: Run): (n: nat) { if run.runAttempt == 0 then 1 else run.runAttempt }

  function GetJobs(env: Environment, s: Session, run: Run): (r: Reply<seq<Job>>) {
    var key := (run.id, Attempt(run));
    if s.jobs.Some? && key in s.jobs.value then Reply(Ok(s.jobs.value[key]), s)
    else
      var read := JobsAt(env, s.clock, run.id);
      var next := Tick(s, LIST);
      Reply(read, if read.Ok? && s.jobs.Some? then next.(jobs := Some(s.jobs.value[key := read.value])) else next)
  }

  /** Every cached inventory was observed since `start`. */
  ghost predicate CachesObserved(env: Environment, start: nat, s: Session) {
    && (s.files.Some? ==> forall pr :: pr in s.files.value ==>
          exists t :: start <= t < s.clock && FilesAt(env, t, pr) == Ok(s.files.value[pr]))
    && (s.jobs.Some? ==> forall key :: key in s.jobs.value ==>
          exists t :: start <= t < s.clock && JobsAt(env, t, key.0) == Ok(s.jobs.value[key]))
  }

  /** A later state of the same batch: caches only gain entries. */
  ghost predicate Extends(s: Session, s': Session) {
    && s.clock <= s'.clock
    && (s.files.Some? <==> s'.files.Some?) && (s.jobs.Some? <==> s'.jobs.Some?)
    && (s.files.Some? ==>
          forall pr :: pr in s.files.value ==> pr in s'.files.value && s'.files.value[pr] == s.files.value[pr])
    && (s.jobs.Some? ==>
          forall key :: key in s.jobs.value ==> key in s'.jobs.value && s'.jobs.value[key] == s.jobs.value[key])
  }

  lemma ObservedLater(env: Environment, start: nat, s: Session, n: nat)
    requires CachesObserved(env, start, s)
    ensures CachesObserved(env, start, Tick(s, n))
  {
    hide FilesAt, JobsAt;
    var s' := Tick(s, n);
    if s'.files.Some? {
      forall pr | pr in s'.files.value
        ensures exists t :: start <= t < s'.clock && FilesAt(env, t, pr) == Ok(s'.files.value[pr]) {
        var t :| start <= t < s.clock && FilesAt(env, t, pr) == Ok(s.files.value[pr]);
      }
    }
    if s'.jobs.Some? {
      forall key | key in s'.jobs.value
        ensures exists t :: start <= t < s'.clock && JobsAt(env, t, key.0) == Ok(s'.jobs.value[key]) {
        var t :| start <= t < s.clock && JobsAt(env, t, key.0) == Ok(s.jobs.value[key]);
      }
    }
  }

  /** A successful answer about files was observed since `start`, cached or not, and stays cached in a batch. */
  lemma FilesObserved(env: Environment, start: nat, s: Session, pr: nat)
    requires start <= s.clock && CachesObserved(env, start, s)
    ensures var r := GetFiles(env, s, pr);
            && Extends(s, r.s) && CachesObserved(env, start, r.s)
            && (r.result.Ok? ==> exists t :: start <= t < r.s.clock && FilesAt(env, t, pr) == r.result)
            && (r.result.Ok? && s.files.Some? ==> pr in r.s.files.value && r.result == Ok(r.s.files.value[pr]))
  {
    hide FilesAt, JobsAt;
    ObservedLater(env, start, s, LIST);
    var r := GetFiles(env, s, pr);
    if !(s.files.Some? && pr in s.files.value) && r.result.Ok? {
      assert start <= s.clock < r.s.clock && FilesAt(env, s.clock, pr) == r.result;
    }
  }

  lemma JobsObserved(env: Environment, start: nat, s: Session, run: Run)
    requires start <= s.clock && CachesObserved(env, start, s)
    ensures var r := GetJobs(env, s, run);
            && Extends(s, r.s) && CachesObserved(env, start, r.s)
            && (r.result.Ok? ==> exists t :: start <= t < r.s.clock && JobsAt(env, t, run.id) == r.result)
  {
    hide FilesAt, JobsAt;
    ObservedLater(env, start, s, LIST);
    var r := GetJobs(env, s, run);
    var key := (run.id, Attempt(run));
    if !(s.jobs.Some? && key in s.jobs.value) && r.result.Ok? {
      assert start <= s.clock < r.s.clock && JobsAt(env, s.clock, run.id) == r.result;
    }
  }

  /** The client object that the tool's functions share. */
  class Client {
    const env: Environment
    var clock: nat
    var files: FileCache
    var jobs: JobCache
    var log: seq<Post>

    constructor (env: Environment, clock: nat)
      ensures this.env == env && Now() == Session(clock, None, None) && log == []
    {
      this.env := env;
      this.clock := clock;
      this.files := None;
      this.jobs := None;
      this.log := [];
    }

    function Now(): Session
      reads this
    {
      Session(clock, files, jobs)
    }

    function Written(): Writer
      reads this
    {
      Writer(Now(), log)
    }

    method PostStatus(head: string, state: State) returns (raised: bool)
      modifies this`clock, this`log
      ensures (raised, Written()) == Publish(env, old(Written()), head, state)
    {
      var left := ATTEMPTS;
      while true
        invariant 0 < left <= ATTEMPTS && files == old(files) && jobs == old(jobs)
        invariant Publish(env, old(Written()), head, state) == Publish(env, Written(), head, state, left)
        decreases left
      {
        var outcome, again := env.posting(clock), env.retry(clock);
        if !outcome.Lost? { log := log + [Post(head, state, clock)]; }
        clock := clock + 1;
        if outcome.Landed? { return false; }
        if !again || left == 1 { return true; }
        left := left - 1;
      }
    }

    method ListOf<T>(read: Snapshot -> seq<T>, capped: bool) returns (r: Result<seq<T>>)
      modifies this`clock
      ensures r == Observed(env, old(clock), read, capped)
      ensures Now() == Tick(old(Now()), LIST)
    {
      r := Paged(ListServer(env, clock, read), capped);
      clock := clock + LIST;
    }

    method Pull(pr: nat) returns (r: Result<PullRequest>)
      modifies this`clock
      ensures Reply(r, Now()) == GetPull(env, old(Now()), pr)
    {
      r := PullAt(env, clock, pr);
      clock := clock + 1;
    }

    method CommitOf(sha: string) returns (r: Result<Commit>)
      modifies this`clock
      ensures Reply(r, Now()) == GetCommit(env, old(Now()), sha)
    {
      r := CommitAt(env, clock, sha);
      clock := clock + 1;
    }

    method Runs(head: string) returns (r: Result<seq<Run>>)
      modifies this`clock
      ensures Reply(r, Now()) == GetRuns(env, old(Now()), head)
    {
      r := ListOf((w: Snapshot) => SeqAt(w.runs, head), false);
    }

    method Associations(head: string) returns (r: Result<seq<Association>>)
      modifies this`clock
      ensures Reply(r, Now()) == GetAssociations(env, old(Now()), head)
    {
      r := ListOf((w: Snapshot) => SeqAt(w.associations, head), false);
    }

    method Files(pr: nat) returns (r: Result<seq<FileEntry>>)
      modifies this`clock, this`files
      ensures Reply(r, Now()) == GetFiles(env, old(Now()), pr)
    {
      if files.Some? && pr in files.value {
        return Ok(files.value[pr]);
      }
      r := ListOf((w: Snapshot) => SeqAt(w.files, pr), true);
      if r.Ok? && files.Some? {
        files := Some(files.value[pr := r.value]);
      }
    }

    method Jobs(run: Run) returns (r: Result<seq<Job>>)
      modifies this`clock, this`jobs
      ensures Reply(r, Now()) == GetJobs(env, old(Now()), run)
    {
      var key := (run.id, Attempt(run));
      if jobs.Some? && key in jobs.value {
        return Ok(jobs.value[key]);
      }
      r := ListOf((w: Snapshot) => SeqAt(w.jobs, run.id), false);
      if r.Ok? && jobs.Some? {
        jobs := Some(jobs.value[key := r.value]);
      }
    }
  }
}
