/** One evaluation of a PR: changed paths, required jobs, test merge and the verdict on each gate. */
module Evaluation {
  import opened Wrappers
  import opened Ordering
  import opened Routing
  import opened Runs
  import opened GitHub
  import Sharding

  // ---------------------------------------------------------------- changed paths

  function EntryNames(f: FileEntry, sources: bool): (r: Result<seq<string>>) {
    if f.filename.None? || f.filename.value == "" then Err("PR file entry lacks filename")
    else if sources && f.status == "renamed" then
      if f.previous.None? || f.previous.value == "" then Err("renamed PR file lacks previous_filename")
      else Ok([f.filename.value, f.previous.value])
    else Ok([f.filename.value])
  }

  /** The destinations of a list of file entries, and with `sources` the origins of renames too. */
  function Names(files: seq<FileEntry>, sources: bool): (r: Result<seq<string>>) {
    if files == [] then Ok([])
    else
      match EntryNames(files[0], sources)
      case Err(e) => Err(e)
      case Ok(names) => After(names, Names(files[1..], sources))
  }

  function PathsOf(files: seq<FileEntry>, sources: bool): (r: Result<seq<string>>) {
    match Names(files, sources)
    case Err(e) => Err(e)
    case Ok(names) => Ok(SortedSet(names, StringLess))
  }

  function GetPaths(env: Environment, s: Session, pr: nat, sources: bool): Reply<seq<string>> {
    var files := GetFiles(env, s, pr);
    match files.result
    case Err(e) => Reply(Err(e), files.s)
    case Ok(entries) => Reply(PathsOf(entries, sources), files.s)
  }

  method ChangedPaths(client: Client, pr: nat, sources: bool) returns (r: Result<seq<string>>)
    modifies client`clock, client`files
    ensures Reply(r, client.Now()) == GetPaths(client.env, old(client.Now()), pr, sources)
  {
    hide GetFiles, SortedSet, StringLess, EntryNames;
    var files := client.Files(pr);
    if files.Err? { return Err(files.error); }
    var changed: seq<string> := [];
    var entries := files.value;
    assert entries[0..] == entries;
    ghost var all := Names(entries, sources);
    AfterNothing(all);
    for i := 0 to |entries|
      invariant all == After(changed, Names(entries[i..], sources))
      invariant client.Now() == GetFiles(client.env, old(client.Now()), pr).s
    {
      assert entries[i..][1..] == entries[i + 1..];
      var names := EntryNames(entries[i], sources);
      if names.Err? { return Err(names.error); }
      AfterBoth(changed, names.value, Names(entries[i + 1..], sources));
      changed := changed + names.value;
    }
    assert entries[|entries|..] == [] && changed + [] == changed;
    r := Ok(SortedSet(changed, StringLess));
  }

  // ---------------------------------------------------------------- the required jobs of a run

  predicate Successful(job: Job) { job.status == Some("completed") && job.conclusion == Some("success") }

  predicate Named(jobs: seq<Job>, name: string) { exists i :: 0 <= i < |jobs| && jobs[i].name == Some(name) }

  predicate Succeeded(jobs: seq<Job>, name: string) {
    exists i :: 0 <= i < |jobs| && jobs[i].name == Some(name) && Successful(jobs[i])
  }

  predicate DistinctNames(jobs: seq<Job>) {
    forall i, j :: 0 <= i < j < |jobs| && jobs[i].name.Some? ==> jobs[i].name != jobs[j].name
  }

  function AllSucceeded(jobs: seq<Job>, required: seq<string>): (r: Result<()>) {
    if exists name <- required :: !Named(jobs, name) then Err("required job absent")
    else if exists name <- required :: !Succeeded(jobs, name) then Err("required job is not completed/success")
    else Ok(())
  }

  /** What the trusted default-branch sources decide, outside this model. */
  datatype Authority = Authority(
    edits: seq<string> -> Result<seq<string>>,
    approved: (nat, nat, seq<string>) -> Result<bool>,
    full: seq<string> -> Result<bool>)

  function JobsVerdict(jobs: seq<Job>, gate: Gate, a: Authority, paths: seq<string>): (r: Result<string>) {
    if !DistinctNames(jobs) then Err("duplicate GitHub job names are ambiguous")
    else
      match AllSucceeded(jobs, gate.requiredJobs)
      case Err(e) => Err(e)
      case Ok(_) =>
        match gate.policy
        case AllSuccess => Ok("all-success")
        case FullOrRegression(full, regression) =>
          match a.full(paths)
          case Err(e) => Err(e)
          case Ok(needsFull) =>
            match AllSucceeded(jobs, if needsFull then full else regression)
            case Err(e) => Err(e)
            case Ok(_) => Ok(if needsFull then "v09-full" else "v09-regression")
  }

  function GetJobsVerdict(env: Environment, s: Session, gate: Gate, run: Run, a: Authority,
                          paths: seq<string>): Reply<string> {
    var jobs := GetJobs(env, s, run);
    match jobs.result
    case Err(e) => Reply(Err(e), jobs.s)
    case Ok(list) => Reply(JobsVerdict(list, gate, a, paths), jobs.s)
  }

  ghost predicate NamesIndexed(byName: map<string, Job>, jobs: seq<Job>) {
    forall name :: name in byName <==> Named(jobs, name)
  }

  /** Each named job is the one found under its name. */
  ghost predicate JobsIndexed(byName: map<string, Job>, jobs: seq<Job>) {
    forall k :: 0 <= k < |jobs| && jobs[k].name.Some? ==>
      jobs[k].name.value in byName && byName[jobs[k].name.value] == jobs[k]
  }

  method IndexJobs(jobs: seq<Job>) returns (byName: map<string, Job>, distinct: bool)
    ensures distinct <==> DistinctNames(jobs)
    ensures forall name :: name in byName <==> Named(jobs, name)
    ensures distinct ==> forall name <- byName :: Successful(byName[name]) <==> Succeeded(jobs, name)
  {
    hide Successful, Named, DistinctNames, NamesIndexed, JobsIndexed;
    byName, distinct := map[], true;
    assert NamesIndexed(byName, jobs[..0]) && DistinctNames(jobs[..0]) && JobsIndexed(byName, jobs[..0]) by {
      NothingIndexed();
    }
    for i := 0 to |jobs|
      invariant NamesIndexed(byName, jobs[..i]) && (distinct <==> DistinctNames(jobs[..i]))
      invariant distinct ==> JobsIndexed(byName, jobs[..i])
    {
      var seen, job := jobs[..i], jobs[i];
      assert jobs[..i + 1] == seen + [job];
      IndexStep(byName, seen, job);
      if job.name.Some? {
        if job.name.value in byName { distinct := false; }
        byName := byName[job.name.value := job];
      }
    }
    assert jobs[..|jobs|] == jobs;
    IndexedMeans(byName, jobs);
  }

  lemma NothingIndexed()
    ensures NamesIndexed(map[], []) && DistinctNames([]) && JobsIndexed(map[], [])
  {
  }

  lemma IndexStep(byName: map<string, Job>, seen: seq<Job>, job: Job)
    requires NamesIndexed(byName, seen)
    ensures var next := if job.name.Some? then byName[job.name.value := job] else byName;
            && NamesIndexed(next, seen + [job])
            && (DistinctNames(seen + [job]) <==> DistinctNames(seen) && (job.name.Some? ==> job.name.value !in byName))
            && (DistinctNames(seen + [job]) && JobsIndexed(byName, seen) ==> JobsIndexed(next, seen + [job]))
  {
    var next := if job.name.Some? then byName[job.name.value := job] else byName;
    var more := seen + [job];
    assert forall k :: 0 <= k < |seen| ==> more[k] == seen[k];
    assert more[|seen|] == job;
    forall name ensures Named(more, name) <==> Named(seen, name) || job.name == Some(name) {
      if k :| 0 <= k < |seen| && seen[k].name == Some(name) { assert more[k].name == Some(name); }
    }
    if job.name.Some? && Named(seen, job.name.value) {
      var k :| 0 <= k < |seen| && seen[k].name == job.name;
      assert more[k].name == more[|seen|].name;
    }
  }

  lemma IndexedMeans(byName: map<string, Job>, jobs: seq<Job>)
    requires NamesIndexed(byName, jobs)
    ensures forall name :: name in byName <==> Named(jobs, name)
    ensures JobsIndexed(byName, jobs) ==> forall name <- byName :: Successful(byName[name]) <==> Succeeded(jobs, name)
  {
    hide Successful;
    if JobsIndexed(byName, jobs) {
      forall name | name in byName ensures Successful(byName[name]) <==> Succeeded(jobs, name) {
        var k :| 0 <= k < |jobs| && jobs[k].name == Some(name);
        assert byName[name] == jobs[k];
      }
    }
  }

  method RequireSuccess(ghost jobs: seq<Job>, byName: map<string, Job>, required: seq<string>) returns (r: Result<()>)
    requires DistinctNames(jobs)
    requires forall name :: name in byName <==> Named(jobs, name)
    requires forall name <- byName :: Successful(byName[name]) <==> Succeeded(jobs, name)
    ensures r == AllSucceeded(jobs, required)
  {
    hide Successful, Named, Succeeded;
    if exists name <- required :: name !in byName { return Err("required job absent"); }
    for i := 0 to |required|
      invariant forall k :: 0 <= k < i ==> Succeeded(jobs, required[k])
    {
      assert required[i] in byName;
      if !Successful(byName[required[i]]) {
        assert !Succeeded(jobs, required[i]);
        return Err("required job is not completed/success");
      }
    }
    r := Ok(());
  }

  method VerifyRequiredJobs(client: Client, gate: Gate, run: Run, a: Authority, paths: seq<string>)
    returns (r: Result<string>)
    modifies client`clock, client`jobs
    ensures Reply(r, client.Now()) == GetJobsVerdict(client.env, old(client.Now()), gate, run, a, paths)
  {
    hide GetJobs, AllSucceeded, Named, Succeeded, Successful, DistinctNames;
    var jobs := client.Jobs(run);
    if jobs.Err? { return Err(jobs.error); }
    var byName, distinct := IndexJobs(jobs.value);
    if !distinct { return Err("duplicate GitHub job names are ambiguous"); }
    var required := RequireSuccess(jobs.value, byName, gate.requiredJobs);
    if required.Err? { return Err(required.error); }
    if gate.policy.AllSuccess? { return Ok("all-success"); }
    var full := a.full(paths);
    if full.Err? { return Err(full.error); }
    var mode := RequireSuccess(jobs.value, byName, if full.value then gate.policy.full else gate.policy.regression);
    if mode.Err? { return Err(mode.error); }
    r := Ok(if full.value then "v09-full" else "v09-regression");
  }

  // ---------------------------------------------------------------- the base and the test merge of a PR

  datatype BaseIdentity = BaseIdentity(branch: string, sha: string, repo: int)

  function BaseOf(pull: PullRequest): (r: Result<BaseIdentity>) {
    match pull.base
    case None => Err("PR base metadata missing")
    case Some(base) =>
      if base.branch.Some? && base.branch.value != "" && base.sha.Some? && Sharding.IsSha(base.sha.value)
         && base.repo.Some? && base.repo.value > 0
      then Ok(BaseIdentity(base.branch.value, base.sha.value, base.repo.value))
      else Err("PR base identity incomplete")
  }

  /** Whether the PR is open against main with a test merge, before its commit is looked up. */
  function MergeCandidate(pull: PullRequest): (r: Result<(string, string)>) {
    if pull.state != Missing && pull.state != Given("open") then Err("qualification PR is not open")
    else
      match BaseOf(pull)
      case Err(e) => Err(e)
      case Ok(base) =>
        if base.branch != "main" then Err("qualification base must be protected main")
        else if pull.merge.None? || !Sharding.IsSha(pull.merge.value)
        then Err("PR synthetic test-merge commit unavailable")
        else Ok((base.sha, pull.merge.value))
  }

  function GetTestMerge(env: Environment, s: Session, pull: PullRequest, head: string): Reply<string> {
    match MergeCandidate(pull)
    case Err(e) => Reply(Err(e), s)
    case Ok((base, merge)) =>
      var commit := GetCommit(env, s, merge);
      match commit.result
      case Err(e) => Reply(Err(e), commit.s)
      case Ok(c) =>
        if c == Commit(Some(merge), [Some(base), Some(head)]) then Reply(Ok(merge), commit.s)
        else Reply(Err("PR synthetic merge parents do not match current base/head"), commit.s)
  }

  method ReviewedTestMerge(client: Client, pull: PullRequest, head: string) returns (r: Result<string>)
    modifies client`clock
    ensures Reply(r, client.Now()) == GetTestMerge(client.env, old(client.Now()), pull, head)
  {
    var candidate := MergeCandidate(pull);
    if candidate.Err? { return Err(candidate.error); }
    var (base, merge) := candidate.value;
    var commit := client.CommitOf(merge);
    if commit.Err? { return Err(commit.error); }
    if commit.value.sha != Some(merge) || |commit.value.parents| != 2
       || commit.value.parents != [Some(base), Some(head)] {
      return Err("PR synthetic merge parents do not match current base/head");
    }
    r := Ok(merge);
  }

  // ---------------------------------------------------------------- the verdict on one gate

  datatype Accepted = Accepted(gate: string, workflow: string, runId: nat, runAttempt: nat, mode: string)

  datatype Note = OnGate(gate: string, text: string) | OnPr(text: string)

  datatype Verdict = Accept(record: Accepted) | Wait(text: string) | Fail(text: string)

  /** Everything the gate loop reads besides GitHub. */
  datatype Matter = Matter(gates: seq<Gate>, a: Authority, pr: nat, head: string, changed: seq<string>, merge: string,
                           runs: seq<Run>)

  predicate Known(gates: seq<Gate>, id: string) { exists i :: 0 <= i < |gates| && gates[i].id == id }

  function GateOf(gates: seq<Gate>, id: string): (g: Gate)
    requires Known(gates, id)
    ensures g in gates && g.id == id
  {
    if gates[0].id == id then gates[0]
    else
      assert Known(gates[1..], id) by {
        var i :| 0 <= i < |gates| && gates[i].id == id;
        assert gates[1..][i - 1].id == id;
      }
      GateOf(gates[1..], id)
  }

  predicate SupportedConclusion(conclusion: Option<string>) {
    conclusion.Some? && conclusion.value in
      ["success", "failure", "cancelled", "skipped", "timed_out", "action_required", "neutral", "stale",
       "startup_failure"]
  }

  function TextOf(field: Option<string>): string { if field.Some? then field.value else "" }

  predicate IsV09(id: string) { id == "v09-qualification" }

  function TargetOf(m: Matter, gate: Gate): Target { Target(gate, m.head, m.pr, m.merge) }

  predicate Covers(wide: seq<string>, narrow: seq<string>) { forall p <- narrow :: p in wide }

  const SUBSET_ERROR := "rename-aware inventory does not cover changed PR paths"
  const V09_SUBSET_ERROR := "v0.9 rename-aware inventory does not cover routed PR files"

  /** The paths that decide the job mode of the gate: rename-aware for v0.9 only. */
  function GetJobPaths(env: Environment, s: Session, m: Matter, id: string): Reply<seq<string>> {
    if !IsV09(id) then Reply(Ok(m.changed), s)
    else
      var paths := GetPaths(env, s, m.pr, true);
      if paths.result.Ok? && !Covers(paths.result.value, m.changed)
      then Reply(Err(V09_SUBSET_ERROR), paths.s)
      else paths
  }

  function CheckJobs(env: Environment, s: Session, m: Matter, gate: Gate, run: Run): (Verdict, Session) {
    var paths := GetJobPaths(env, s, m, gate.id);
    match paths.result
    case Err(e) => (Fail(e), paths.s)
    case Ok(list) =>
      var verdict := GetJobsVerdict(env, paths.s, gate, run, m.a, list);
      match verdict.result
      case Err(e) => (Fail(e), verdict.s)
      case Ok(mode) => (Accept(Accepted(gate.id, gate.workflow, run.id, Attempt(run), mode)), verdict.s)
  }

  function Judge(env: Environment, s: Session, m: Matter, gate: Gate): (Verdict, Session) {
    var t := TargetOf(m, gate);
    match Newest(m.runs, t)
    case None =>
      (if HasStaleRun(m.runs, t) then Fail("PR base changed") else Wait("absent"), s)
    case Some(run) =>
      if run.status != Some("completed")
      then (Wait(if TextOf(run.status) == "" then "unknown" else TextOf(run.status)), s)
      else if !SupportedConclusion(run.conclusion) then (Fail("unknown completed conclusion"), s)
      else if run.conclusion != Some("success") then (Fail("exact-head PR run concluded " + TextOf(run.conclusion)), s)
      else CheckJobs(env, s, m, gate, run)
  }

  method JudgeGate(client: Client, m: Matter, gate: Gate) returns (v: Verdict)
    modifies client`clock, client`files, client`jobs
    ensures (v, client.Now()) == Judge(client.env, old(client.Now()), m, gate)
  {
    hide GetPaths, GetJobsVerdict, Newest, HasStaleRun, SupportedConclusion, IsV09;
    var t := TargetOf(m, gate);
    var newest := Newest(m.runs, t);
    if newest.None? {
      if HasStaleRun(m.runs, t) { return Fail("PR base changed"); }
      return Wait("absent");
    }
    var run := newest.value;
    if run.status != Some("completed") {
      return Wait(if TextOf(run.status) == "" then "unknown" else TextOf(run.status));
    }
    if !SupportedConclusion(run.conclusion) { return Fail("unknown completed conclusion"); }
    if run.conclusion != Some("success") { return Fail("exact-head PR run concluded " + TextOf(run.conclusion)); }
    var paths := m.changed;
    if IsV09(gate.id) {
      var wide := ChangedPaths(client, m.pr, true);
      if wide.Err? { return Fail(wide.error); }
      if !Covers(wide.value, m.changed) { return Fail(V09_SUBSET_ERROR); }
      paths := wide.value;
    }
    var mode := VerifyRequiredJobs(client, gate, run, m.a, paths);
    if mode.Err? { return Fail(mode.error); }
    v := Accept(Accepted(gate.id, gate.workflow, run.id, Attempt(run), mode.value));
  }

  // ---------------------------------------------------------------- the gate loop

  datatype Tally = Tally(accepted: seq<Accepted>, waiting: seq<Note>, failures: seq<Note>)

  function Record(t: Tally, id: string, v: Verdict): Tally {
    match v
    case Accept(record) => t.(accepted := t.accepted + [record])
    case Wait(text) => t.(waiting := t.waiting + [OnGate(id, text)])
    case Fail(text) => t.(failures := t.failures + [OnGate(id, text)])
  }

  predicate AllKnown(gates: seq<Gate>, ids: seq<string>) { forall i :: 0 <= i < |ids| ==> Known(gates, ids[i]) }

  function JudgeAll(env: Environment, s: Session, m: Matter, ids: seq<string>): (r: (Tally, Session))
    requires AllKnown(m.gates, ids)
    decreases |ids|
  {
    if ids == [] then (Tally([], [], []), s)
    else
      var n := |ids| - 1;
      var (t, s1) := JudgeAll(env, s, m, ids[..n]);
      var (v, s2) := Judge(env, s1, m, GateOf(m.gates, ids[n]));
      (Record(t, ids[n], v), s2)
  }

  method JudgeGates(client: Client, m: Matter, ids: seq<string>) returns (t: Tally)
    requires AllKnown(m.gates, ids)
    modifies client`clock, client`files, client`jobs
    ensures (t, client.Now()) == JudgeAll(client.env, old(client.Now()), m, ids)
  {
    hide Judge, Known;
    t := Tally([], [], []);
    for i := 0 to |ids|
      invariant (t, client.Now()) == JudgeAll(client.env, old(client.Now()), m, ids[..i])
    {
      assert ids[..i + 1][..i] == ids[..i];
      var v := JudgeGate(client, m, GateOf(m.gates, ids[i]));
      t := Record(t, ids[i], v);
    }
    assert ids[..|ids|] == ids;
  }

  // ---------------------------------------------------------------- the whole evaluation

  datatype Evaluation = Evaluation(pr: nat, head: string, changed: seq<string>, required: seq<string>,
                                   accepted: seq<Accepted>, waiting: seq<Note>, failures: seq<Note>, state: State)

  function StateOf(failures: seq<Note>, waiting: seq<Note>): State {
    if failures != [] then Failure else if waiting != [] then Pending else Success
  }

  /** How far the evaluation gets before it looks at runs: an early failure, or the scope of the PR. */
  datatype Scope = Refused(e: Evaluation)
    | Scoped(pull: PullRequest, changed: seq<string>, original: seq<string>, required: seq<string>)

  function Refusal(pr: nat, head: string, changed: seq<string>, required: seq<string>, text: string): Evaluation {
    Evaluation(pr, head, changed, required, [], [], [OnPr(text)], Failure)
  }

  predicate AtHead(pull: PullRequest, head: string) { pull.head.Some? && pull.head.value.sha == Some(head) }

  /** The inventory with rename sources, and the guard that renames skip no gate. */
  function GetOriginal(env: Environment, s: Session, c: Contract, pr: nat, head: string, pull: PullRequest,
                       changed: seq<string>, required: seq<string>): Reply<Scope> {
    var wide := GetPaths(env, s, pr, true);
    match wide.result
    case Err(e) => Reply(Err(e), wide.s)
    case Ok(original) =>
      if !Covers(original, changed) then Reply(Err(SUBSET_ERROR), wide.s)
      else
        match Required(c, original)
        case Err(e) => Reply(Err(e), wide.s)
        case Ok(all) =>
          if Covers(required, all) then Reply(Ok(Scoped(pull, changed, original, required)), wide.s)
          else Reply(Ok(Refused(Refusal(pr, head, changed, required, "Rename removes protected source paths"))), wide.s)
  }

  function GetScope(env: Environment, s: Session, c: Contract, pr: nat, head: string): Reply<Scope> {
    var p := GetPull(env, s, pr);
    match p.result
    case Err(e) => Reply(Err(e), p.s)
    case Ok(pull) =>
      if !AtHead(pull, head) then Reply(Err("PR head moved"), p.s)
      else if pull.changedFiles.None? || pull.changedFiles.value < 0
      then Reply(Err("GitHub PR changed-file count unavailable or malformed"), p.s)
      else if pull.changedFiles.value > 3000
      then Reply(Ok(Refused(Refusal(pr, head, [], c.mandatoryIds, "PR changes more than 3,000 files"))), p.s)
      else
        var paths := GetPaths(env, p.s, pr, false);
        match paths.result
        case Err(e) => Reply(Err(e), paths.s)
        case Ok(changed) =>
          if |changed| != pull.changedFiles.value || !Distinct(changed)
          then Reply(Err("GitHub PR file inventory incomplete or duplicated"), paths.s)
          else
            match Required(c, changed)
            case Err(e) => Reply(Err(e), paths.s)
            case Ok(required) => GetOriginal(env, paths.s, c, pr, head, pull, changed, required)
  }

  method ScopeOf(client: Client, c: Contract, pr: nat, head: string) returns (r: Result<Scope>)
    modifies client`clock, client`files
    ensures Reply(r, client.Now()) == GetScope(client.env, old(client.Now()), c, pr, head)
  {
    hide GetPaths, Required, Distinct, Covers;
    var p := client.Pull(pr);
    if p.Err? { return Err(p.error); }
    var pull := p.value;
    if !AtHead(pull, head) { return Err("PR head moved"); }
    if pull.changedFiles.None? || pull.changedFiles.value < 0 {
      return Err("GitHub PR changed-file count unavailable or malformed");
    }
    if pull.changedFiles.value > 3000 {
      return Ok(Refused(Refusal(pr, head, [], c.mandatoryIds, "PR changes more than 3,000 files")));
    }
    var paths := ChangedPaths(client, pr, false);
    if paths.Err? { return Err(paths.error); }
    var changed := paths.value;
    if |changed| != pull.changedFiles.value || !Distinct(changed) {
      return Err("GitHub PR file inventory incomplete or duplicated");
    }
    var required := RequiredGateIds(c, changed);
    if required.Err? { return Err(required.error); }
    var wide := ChangedPaths(client, pr, true);
    if wide.Err? { return Err(wide.error); }
    if !Covers(wide.value, changed) { return Err(SUBSET_ERROR); }
    var all := RequiredGateIds(c, wide.value);
    if all.Err? { return Err(all.error); }
    if !Covers(required.value, all.value) {
      return Ok(Refused(Refusal(pr, head, changed, required.value, "Rename removes protected source paths")));
    }
    r := Ok(Scoped(pull, changed, wide.value, required.value));
  }

  /** Whether the PR may change the gate definitions that it changes, if it changes any. */
  function GetTrusted(s: Session, a: Authority, pr: nat, original: seq<string>): Reply<bool> {
    match a.edits(original)
    case Err(e) => Reply(Err(e), s)
    case Ok(edits) =>
      if edits == [] then Reply(Ok(true), s) else Reply(a.approved(s.clock, pr, edits), Tick(s, 1))
  }

  method Trusted(client: Client, a: Authority, pr: nat, original: seq<string>) returns (r: Result<bool>)
    modifies client`clock
    ensures Reply(r, client.Now()) == GetTrusted(old(client.Now()), a, pr, original)
  {
    var edits := a.edits(original);
    if edits.Err? { return Err(edits.error); }
    if edits.value == [] { return Ok(true); }
    r := a.approved(client.clock, pr, edits.value);
    client.clock := client.clock + 1;
  }

  /** The runs of the head: the snapshot of the batch if there is one. */
  function RunsFor(env: Environment, s: Session, head: string, snapshot: Option<seq<Run>>): Reply<seq<Run>> {
    if snapshot.Some? then Reply(Ok(snapshot.value), s) else GetRuns(env, s, head)
  }

  function Verdicts(env: Environment, s: Session, m: Matter, required: seq<string>): Reply<Evaluation>
    requires AllKnown(m.gates, required)
  {
    var (t, s1) := JudgeAll(env, s, m, required);
    Reply(Ok(Evaluation(m.pr, m.head, m.changed, required, t.accepted, t.waiting, t.failures,
                        StateOf(t.failures, t.waiting))), s1)
  }

  /** From a trusted scope to the verdicts. */
  function Qualify(env: Environment, s: Session, c: Contract, a: Authority, pr: nat, head: string,
                   snapshot: Option<seq<Run>>,
                   pull: PullRequest, changed: seq<string>, required: seq<string>): Reply<Evaluation>
    requires AllKnown(c.gates, required)
  {
    var merge := GetTestMerge(env, s, pull, head);
    match merge.result
    case Err(e) => Reply(Err(e), merge.s)
    case Ok(sha) =>
      var runs := RunsFor(env, merge.s, head, snapshot);
      match runs.result
      case Err(e) => Reply(Err(e), runs.s)
      case Ok(list) => Verdicts(env, runs.s, Matter(c.gates, a, pr, head, changed, sha, list), required)
  }

  function Evaluate(env: Environment, s: Session, c: Contract, a: Authority, pr: nat, head: string,
                    snapshot: Option<seq<Run>>): Reply<Evaluation> {
    if !Sharding.IsSha(head) then Reply(Err("head SHA must be an exact 40-hex commit"), s)
    else
      var scope := GetScope(env, s, c, pr, head);
      match scope.result
      case Err(e) => Reply(Err(e), scope.s)
      case Ok(Refused(e)) => Reply(Ok(e), scope.s)
      case Ok(Scoped(pull, changed, original, required)) =>
        var trusted := GetTrusted(scope.s, a, pr, original);
        match trusted.result
        case Err(e) => Reply(Err(e), trusted.s)
        case Ok(ok) =>
          if !ok
          then Reply(Ok(Refusal(pr, head, changed, required, "PR changes executable qualification authority")),
                     trusted.s)
          else
            RequiredKnown(env, s, c, pr, head);
            Qualify(env, trusted.s, c, a, pr, head, snapshot, pull, changed, required)
  }

  lemma {:induction false} InOrderKnown(gates: seq<Gate>, ids: set<string>)
    ensures AllKnown(gates, InOrder(gates, ids))
  {
    var list := InOrder(gates, ids);
    forall i | 0 <= i < |list| ensures Known(gates, list[i]) {
      InOrderMembers(gates, ids, list[i]);
    }
  }

  lemma RequiredAreKnown(c: Contract, paths: seq<string>)
    ensures Required(c, paths).Ok? ==> AllKnown(c.gates, Required(c, paths).value)
  {
    hide InOrder, AllKnown;
    if Required(c, paths).Ok? {
      InOrderKnown(c.gates, (set id | id in c.mandatoryIds) + Specialised(c.gates, paths).value);
    }
  }

  lemma RequiredKnown(env: Environment, s: Session, c: Contract, pr: nat, head: string)
    ensures var scope := GetScope(env, s, c, pr, head).result;
            scope.Ok? && scope.value.Scoped? ==>
              Required(c, scope.value.changed) == Ok(scope.value.required) && AllKnown(c.gates, scope.value.required)
  {
    hide GetPaths, Required, Distinct, Covers, AllKnown;
    var scope := GetScope(env, s, c, pr, head).result;
    if scope.Ok? && scope.value.Scoped? {
      RequiredAreKnown(c, scope.value.changed);
    }
  }

  method EvaluatePr(client: Client, c: Contract, a: Authority, pr: nat, head: string, snapshot: Option<seq<Run>>)
    returns (r: Result<Evaluation>)
    modifies client`clock, client`files, client`jobs
    ensures Reply(r, client.Now()) == Evaluate(client.env, old(client.Now()), c, a, pr, head, snapshot)
  {
    hide GetScope, GetTrusted, GetTestMerge, JudgeAll, AllKnown, Sharding.IsSha;
    if !Sharding.IsSha(head) { return Err("head SHA must be an exact 40-hex commit"); }
    var scope := ScopeOf(client, c, pr, head);
    if scope.Err? { return Err(scope.error); }
    if scope.value.Refused? { return Ok(scope.value.e); }
    var Scoped(pull, changed, original, required) := scope.value;
    var trusted := Trusted(client, a, pr, original);
    if trusted.Err? { return Err(trusted.error); }
    if !trusted.value {
      return Ok(Refusal(pr, head, changed, required, "PR changes executable qualification authority"));
    }
    RequiredKnown(client.env, old(client.Now()), c, pr, head);
    var merge := ReviewedTestMerge(client, pull, head);
    if merge.Err? { return Err(merge.error); }
    var runs := [];
    if snapshot.Some? {
      runs := snapshot.value;
    } else {
      var read := client.Runs(head);
      if read.Err? { return Err(read.error); }
      runs := read.value;
    }
    var t := JudgeGates(client, Matter(c.gates, a, pr, head, changed, merge.value, runs), required);
    r := Ok(Evaluation(pr, head, changed, required, t.accepted, t.waiting, t.failures, StateOf(t.failures, t.waiting)));
  }
}
