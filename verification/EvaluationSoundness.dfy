/** A successful evaluation is backed, for every applicable gate, by facts that GitHub really showed. */
module EvaluationSoundness {
  import opened Wrappers
  import opened Routing
  import opened Runs
  import opened GitHub
  import opened Evaluation
  import opened EvaluationConservation
  import Sharding

  // ---------------------------------------------------------------- evidence

  /** The observations behind one accepted gate, with the times at which they were made. */
  datatype GateEvidence = GateEvidence(run: Run, jobs: seq<Job>, jobsAt: nat, paths: seq<string>, files: seq<FileEntry>,
                                       pathsAt: nat)

  ghost predicate ProvesGate(env: Environment, from: nat, until: nat, m: Matter, gate: Gate, g: GateEvidence) {
    var t := TargetOf(m, gate);
    // the newest run that is bound to this PR and test merge succeeded
    && g.run in m.runs && RunMatches(g.run, t) && (forall r <- m.runs :: RunMatches(r, t) ==> !Older(g.run, r))
    && g.run.status == Some("completed") && g.run.conclusion == Some("success")
    // and so did every job it requires
    && from <= g.jobsAt < until && JobsAt(env, g.jobsAt, g.run.id) == Ok(g.jobs)
    && DistinctNames(g.jobs) && (forall name <- gate.requiredJobs :: Succeeded(g.jobs, name))
    && (gate.policy.FullOrRegression? ==>
          && m.a.full(g.paths).Ok?
          && forall name <- (if m.a.full(g.paths).value then gate.policy.full else gate.policy.regression) ::
               Succeeded(g.jobs, name))
    && (if IsV09(gate.id)
        then from <= g.pathsAt < until && FilesAt(env, g.pathsAt, m.pr) == Ok(g.files)
             && PathsOf(g.files, true) == Ok(g.paths) && Covers(g.paths, m.changed)
        else g.paths == m.changed)
  }

  ghost predicate GateProven(env: Environment, from: nat, until: nat, m: Matter, gate: Gate) {
    exists g :: ProvesGate(env, from, until, m, gate, g)
  }

  /** The observations behind a successful evaluation. */
  datatype Evidence = Evidence(pull: PullRequest, pullAt: nat, base: BaseIdentity, commitAt: nat,
                               files: seq<FileEntry>, filesAt: nat, changed: seq<string>,
                               sources: seq<FileEntry>, sourcesAt: nat, original: seq<string>,
                               runs: seq<Run>, runsAt: nat)

  function MatterOf(c: Contract, a: Authority, pr: nat, head: string, e: Evidence): Matter {
    Matter(c.gates, a, pr, head, e.changed, TextOf(e.pull.merge), e.runs)
  }

  /** The PR was at this head, open against main, and its test merge has exactly the parents base and head. */
  ghost predicate ProvesMerge(env: Environment, from: nat, until: nat, pr: nat, head: string, e: Evidence) {
    && from <= e.pullAt < until && PullAt(env, e.pullAt, pr) == Ok(e.pull) && AtHead(e.pull, head)
    && (e.pull.state == Missing || e.pull.state == Given("open"))
    && BaseOf(e.pull) == Ok(e.base) && e.base.branch == "main"
    && e.pull.merge.Some? && Sharding.IsSha(e.pull.merge.value)
    && from <= e.commitAt < until
    && CommitAt(env, e.commitAt, e.pull.merge.value) == Ok(Commit(e.pull.merge, [Some(e.base.sha), Some(head)]))
  }

  /** The changed paths are the whole declared inventory, and the rename-aware list covers them. */
  ghost predicate ProvesScope(env: Environment, from: nat, until: nat, pr: nat, e: Evidence) {
    && from <= e.filesAt < until && FilesAt(env, e.filesAt, pr) == Ok(e.files)
    && PathsOf(e.files, false) == Ok(e.changed)
    && e.pull.changedFiles == Some(|e.changed|) && |e.changed| <= 3000
    && from <= e.sourcesAt < until && FilesAt(env, e.sourcesAt, pr) == Ok(e.sources)
    && PathsOf(e.sources, true) == Ok(e.original)
    && Covers(e.original, e.changed)
  }

  /** The change edits no gate definition, or its edits were approved in the window. */
  ghost predicate ProvesTrust(from: nat, until: nat, a: Authority, pr: nat, e: Evidence) {
    && a.edits(e.original).Ok?
    && (|| a.edits(e.original).value == []
        || exists t :: from <= t < until && a.approved(t, pr, a.edits(e.original).value) == Ok(true))
  }

  ghost predicate Proves(env: Environment, from: nat, until: nat, c: Contract, a: Authority, pr: nat, head: string,
                         e: Evidence) {
    && ProvesMerge(env, from, until, pr, head, e)
    && ProvesScope(env, from, until, pr, e)
    && ProvesTrust(from, until, a, pr, e)
    && from <= e.runsAt < until && RunsAt(env, e.runsAt, head) == Ok(e.runs)
    && forall i ::
         0 <= i < |c.gates| && (Applicable(c.gates[i], c, e.original) || Applicable(c.gates[i], c, e.changed)) ==>
                     GateProven(env, from, until, MatterOf(c, a, pr, head, e), c.gates[i])
  }

  // ---------------------------------------------------------------- the session only moves forward

  ghost predicate Later(env: Environment, start: nat, s: Session, s': Session) {
    Extends(s, s') && CachesObserved(env, start, s')
  }

  lemma LaterTrans(env: Environment, start: nat, s: Session, s1: Session, s2: Session)
    requires Extends(s, s1) && Later(env, start, s1, s2)
    ensures Later(env, start, s, s2)
  {
    hide CachesObserved;
  }

  lemma LaterTick(env: Environment, start: nat, s: Session, n: nat)
    requires CachesObserved(env, start, s)
    ensures Later(env, start, s, Tick(s, n))
  {
    hide CachesObserved;
    ObservedLater(env, start, s, n);
  }

  lemma PathsObserved(env: Environment, start: nat, s: Session, pr: nat, wide: bool)
    returns (files: seq<FileEntry>, at: nat)
    requires start <= s.clock && CachesObserved(env, start, s)
    ensures var r := GetPaths(env, s, pr, wide);
            && Later(env, start, s, r.s)
            && (r.result.Ok? ==>
                  start <= at < r.s.clock && FilesAt(env, at, pr) == Ok(files) && PathsOf(files, wide) == r.result)
  {
    hide FilesAt, PathsOf, CachesObserved, Extends, GetFiles;
    FilesObserved(env, start, s, pr);
    var r := GetFiles(env, s, pr);
    if r.result.Ok? {
      files := r.result.value;
      at :| start <= at < r.s.clock && FilesAt(env, at, pr) == r.result;
    } else {
      files, at := [], 0;
    }
  }

  lemma JobPathsObserved(env: Environment, start: nat, s: Session, m: Matter, id: string)
    returns (files: seq<FileEntry>, at: nat)
    requires start <= s.clock && CachesObserved(env, start, s)
    ensures var r := GetJobPaths(env, s, m, id);
            && Later(env, start, s, r.s)
            && (r.result.Ok? ==>
                  if IsV09(id)
                  then
                    && start <= at < r.s.clock && FilesAt(env, at, m.pr) == Ok(files)
                    && PathsOf(files, true) == r.result && Covers(r.result.value, m.changed)
                  else r.result.value == m.changed)
  {
    hide FilesAt, PathsOf, CachesObserved, GetPaths, Covers, IsV09;
    files, at := PathsObserved(env, start, s, m.pr, true);
  }

  lemma VerdictMeans(jobs: seq<Job>, gate: Gate, a: Authority, paths: seq<string>)
    requires JobsVerdict(jobs, gate, a, paths).Ok?
    ensures DistinctNames(jobs) && forall name <- gate.requiredJobs :: Succeeded(jobs, name)
    ensures gate.policy.FullOrRegression? ==>
              && a.full(paths).Ok?
              && forall name <- (if a.full(paths).value then gate.policy.full else gate.policy.regression) ::
                   Succeeded(jobs, name)
  {
    hide Succeeded, Named, DistinctNames;
  }

  lemma CheckJobsSound(env: Environment, start: nat, s: Session, m: Matter, gate: Gate, run: Run)
    requires start <= s.clock && CachesObserved(env, start, s)
    requires Newest(m.runs, TargetOf(m, gate)) == Some(run) && run.status == Some("completed")
    requires run.conclusion == Some("success")
    ensures var (v, s') := CheckJobs(env, s, m, gate, run);
            Later(env, start, s, s') && (v.Accept? ==> GateProven(env, start, s'.clock, m, gate))
  {
    hide FilesAt, JobsAt, PathsOf, CachesObserved, Extends, GetJobs, GetJobPaths, JobsVerdict, Covers, IsV09, Newest,
         RunMatches, Older, DistinctNames, Succeeded;
    var files, pathsAt := JobPathsObserved(env, start, s, m, gate.id);
    var paths := GetJobPaths(env, s, m, gate.id);
    if paths.result.Ok? {
      LaterClock(env, start, s, paths.s);
      JobsObserved(env, start, paths.s, run);
      var jobs := GetJobs(env, paths.s, run);
      LaterClock(env, start, paths.s, jobs.s);
      LaterTrans(env, start, s, paths.s, jobs.s);
      if jobs.result.Ok? && JobsVerdict(jobs.result.value, gate, m.a, paths.result.value).Ok? {
        var jobsAt :| start <= jobsAt < jobs.s.clock && JobsAt(env, jobsAt, run.id) == jobs.result;
        VerdictMeans(jobs.result.value, gate, m.a, paths.result.value);
        NewestMeans(m.runs, TargetOf(m, gate));
        var g := GateEvidence(run, jobs.result.value, jobsAt, paths.result.value, files, pathsAt);
        assert ProvesGate(env, start, jobs.s.clock, m, gate, g);
      }
    }
  }

  lemma LaterClock(env: Environment, start: nat, s: Session, s': Session)
    requires Later(env, start, s, s')
    ensures s.clock <= s'.clock
  {
  }

  lemma JudgeSound(env: Environment, start: nat, s: Session, m: Matter, gate: Gate)
    requires start <= s.clock && CachesObserved(env, start, s)
    ensures var (v, s') := Judge(env, s, m, gate);
            Later(env, start, s, s') && (v.Accept? ==> GateProven(env, start, s'.clock, m, gate))
  {
    hide CachesObserved, CheckJobs, Newest, HasStaleRun, SupportedConclusion, GateProven;
    var newest := Newest(m.runs, TargetOf(m, gate));
    if newest.Some? && newest.value.status == Some("completed") && newest.value.conclusion == Some("success") {
      CheckJobsSound(env, start, s, m, gate, newest.value);
    }
  }

  lemma ProvenLonger(env: Environment, start: nat, until: nat, later: nat, m: Matter, gate: Gate)
    requires GateProven(env, start, until, m, gate) && until <= later
    ensures GateProven(env, start, later, m, gate)
  {
    hide JobsAt, FilesAt, PathsOf, RunMatches, Older, DistinctNames, Succeeded, Covers, IsV09;
    var g :| ProvesGate(env, start, until, m, gate, g);
    assert ProvesGate(env, start, later, m, gate, g);
  }

  lemma {:induction false} LoopSound(env: Environment, start: nat, s: Session, m: Matter, ids: seq<string>)
    requires AllKnown(m.gates, ids) && start <= s.clock && CachesObserved(env, start, s)
    ensures var (t, s') := JudgeAll(env, s, m, ids);
            && Later(env, start, s, s')
            && (t.waiting == [] && t.failures == [] ==>
                  forall i :: 0 <= i < |ids| ==> GateProven(env, start, s'.clock, m, GateOf(m.gates, ids[i])))
    decreases |ids|
  {
    hide CachesObserved, Judge, GateProven, Known;
    if ids != [] {
      var n := |ids| - 1;
      LoopSound(env, start, s, m, ids[..n]);
      var (t, s1) := JudgeAll(env, s, m, ids[..n]);
      var gate := GateOf(m.gates, ids[n]);
      JudgeSound(env, start, s1, m, gate);
      var (v, s2) := Judge(env, s1, m, gate);
      LaterTrans(env, start, s, s1, s2);
      var (t', _) := JudgeAll(env, s, m, ids);
      if t'.waiting == [] && t'.failures == [] {
        forall i | 0 <= i < |ids| ensures GateProven(env, start, s2.clock, m, GateOf(m.gates, ids[i])) {
          if i < n {
            assert ids[..n][i] == ids[i];
            ProvenLonger(env, start, s1.clock, s2.clock, m, GateOf(m.gates, ids[i]));
          }
        }
      }
    }
  }

  // ---------------------------------------------------------------- the scope of a PR

  lemma OriginalSound(env: Environment, start: nat, s: Session, c: Contract, pr: nat, head: string, pull: PullRequest,
                      changed: seq<string>, required: seq<string>) returns (sources: seq<FileEntry>, at: nat)
    requires start <= s.clock && CachesObserved(env, start, s)
    ensures var r := GetOriginal(env, s, c, pr, head, pull, changed, required);
            && Later(env, start, s, r.s)
            && (r.result.Ok? && r.result.value.Scoped? ==>
                  var original := r.result.value.original;
                  && r.result.value == Scoped(pull, changed, original, required)
                  && start <= at < r.s.clock && FilesAt(env, at, pr) == Ok(sources)
                  && PathsOf(sources, true) == Ok(original)
                  && Covers(original, changed)
                  && Required(c, original).Ok? && Covers(required, Required(c, original).value))
  {
    hide FilesAt, PathsOf, CachesObserved, GetPaths, Covers, Required;
    sources, at := PathsObserved(env, start, s, pr, true);
  }

  lemma ScopeSound(env: Environment, start: nat, s: Session, c: Contract, pr: nat, head: string) returns (e: Evidence)
    requires start <= s.clock && CachesObserved(env, start, s)
    ensures var r := GetScope(env, s, c, pr, head);
            && Later(env, start, s, r.s)
            && (r.result.Ok? && r.result.value.Scoped? ==>
                  && r.result.value == Scoped(e.pull, e.changed, e.original, r.result.value.required)
                  && s.clock <= e.pullAt < r.s.clock && PullAt(env, e.pullAt, pr) == Ok(e.pull) && AtHead(e.pull, head)
                  && ProvesScope(env, start, r.s.clock, pr, e)
                  && Required(c, e.changed) == Ok(r.result.value.required)
                  && Required(c, e.original).Ok? && Covers(r.result.value.required, Required(c, e.original).value))
  {
    hide FilesAt, PathsOf, CachesObserved, GetPaths, Covers, Required, Distinct, GetOriginal;
    var p := GetPull(env, s, pr);
    LaterTick(env, start, s, 1);
    var files, filesAt := PathsObserved(env, start, p.s, pr, false);
    var paths := GetPaths(env, p.s, pr, false);
    LaterTrans(env, start, s, p.s, paths.s);
    var none := BaseIdentity("", "", 0);
    e := Evidence(PullRequest(Missing, None, None, None, None), 0, none, 0, [], 0, [], [], 0, [], [], 0);
    if p.result.Ok? && paths.result.Ok? && Required(c, paths.result.value).Ok? {
      var changed, required := paths.result.value, Required(c, paths.result.value).value;
      var sources, sourcesAt := OriginalSound(env, start, paths.s, c, pr, head, p.result.value, changed, required);
      var wide := GetOriginal(env, paths.s, c, pr, head, p.result.value, changed, required);
      LaterTrans(env, start, s, paths.s, wide.s);
      var original := if wide.result.Ok? && wide.result.value.Scoped? then wide.result.value.original else [];
      e := Evidence(p.result.value, s.clock, none, 0, files, filesAt, changed, sources, sourcesAt, original, [], 0);
    }
  }

  lemma MergeSound(env: Environment, start: nat, s: Session, pull: PullRequest, head: string)
    requires start <= s.clock && CachesObserved(env, start, s)
    ensures var r := GetTestMerge(env, s, pull, head);
            && Later(env, start, s, r.s)
            && (r.result.Ok? ==>
                  && (pull.state == Missing || pull.state == Given("open"))
                  && BaseOf(pull).Ok? && BaseOf(pull).value.branch == "main"
                  && pull.merge == Some(r.result.value) && Sharding.IsSha(r.result.value)
                  && s.clock < r.s.clock
                  && CommitAt(env, s.clock, r.result.value) ==
                     Ok(Commit(pull.merge, [Some(BaseOf(pull).value.sha), Some(head)])))
  {
    hide CachesObserved, BaseOf, CommitAt;
    LaterTick(env, start, s, 1);
  }

  // ---------------------------------------------------------------- the theorem

  /** Gates that the rename-aware paths select are among the required ones. */
  lemma ApplicableRequired(c: Contract, paths: seq<string>, i: nat)
    requires Loaded(c) && Required(c, paths).Ok? && i < |c.gates| && Applicable(c.gates[i], c, paths)
    ensures c.gates[i].id in Required(c, paths).value
  {
    hide Required, Selected;
    RequiredMeans(c, paths);
  }

  lemma GateOfDistinct(c: Contract, i: nat)
    requires Loaded(c) && i < |c.gates|
    ensures Known(c.gates, c.gates[i].id) && GateOf(c.gates, c.gates[i].id) == c.gates[i]
  {
  }

  /** The evaluation moves the session forward and, when it succeeds, comes with its evidence. */
  lemma SuccessIsSound(env: Environment, start: nat, s: Session, c: Contract, a: Authority, pr: nat, head: string,
                       snapshot: Option<seq<Run>>, snapshotAt: nat) returns (e: Evidence)
    requires Loaded(c) && start <= s.clock && CachesObserved(env, start, s)
    requires snapshot.Some? ==> start <= snapshotAt < s.clock && RunsAt(env, snapshotAt, head) == Ok(snapshot.value)
    ensures var r := Evaluate(env, s, c, a, pr, head, snapshot);
            && Later(env, start, s, r.s)
            && (r.result.Ok? && r.result.value.state.Success? ==>
                  && Proves(env, start, r.s.clock, c, a, pr, head, e) && e.pullAt >= s.clock
                  && Required(c, e.changed) == Ok(r.result.value.required))
  {
    hide CachesObserved, GetScope, GetTestMerge, GetTrusted, RunsFor, Loaded, AllKnown, Verdicts, Proves, ProvesScope,
         Required, Covers, Sharding.IsSha;
    LaterTick(env, start, s, 0);
    e := ScopeSound(env, start, s, c, pr, head);
    RequiredKnown(env, s, c, pr, head);
    ScopeConserves(env, s, c, pr, head);
    var scope := GetScope(env, s, c, pr, head);
    if Sharding.IsSha(head) && scope.result.Ok? && scope.result.value.Scoped? {
      var Scoped(pull, changed, original, required) := scope.result.value;
      var trusted := GetTrusted(scope.s, a, pr, original);
      LaterClock(env, start, s, scope.s);
      TrustedForward(env, start, scope.s, a, pr, original);
      LaterTrans(env, start, s, scope.s, trusted.s);
      if trusted.result.Ok? && trusted.result.value {
        e := QualifySound(env, start, trusted.s, c, a, pr, head, snapshot, snapshotAt, required, e, scope.s.clock);
        LaterTrans(env, start, s, trusted.s,
                   Qualify(env, trusted.s, c, a, pr, head, snapshot, pull, changed, required).s);
      }
    }
  }

  lemma TrustedForward(env: Environment, start: nat, s: Session, a: Authority, pr: nat, original: seq<string>)
    requires start <= s.clock && CachesObserved(env, start, s)
    ensures var r := GetTrusted(s, a, pr, original);
            && Later(env, start, s, r.s)
            && (r.result == Ok(true) ==>
                  && a.edits(original).Ok?
                  && (|| a.edits(original).value == []
                      || (&& start <= s.clock < r.s.clock
                          && a.approved(s.clock, pr, a.edits(original).value) == Ok(true))))
  {
    hide CachesObserved;
    LaterTick(env, start, s, 0);
    LaterTick(env, start, s, 1);
  }

  lemma RunsForward(env: Environment, start: nat, s: Session, head: string, snapshot: Option<seq<Run>>, snapshotAt: nat)
    returns (at: nat)
    requires start <= s.clock && CachesObserved(env, start, s)
    requires snapshot.Some? ==> start <= snapshotAt < s.clock && RunsAt(env, snapshotAt, head) == Ok(snapshot.value)
    ensures var r := RunsFor(env, s, head, snapshot);
            && Later(env, start, s, r.s)
            && (r.result.Ok? ==> start <= at < r.s.clock && RunsAt(env, at, head) == r.result)
  {
    hide CachesObserved, RunsAt;
    LaterTick(env, start, s, 0);
    LaterTick(env, start, s, LIST);
    at := if snapshot.Some? then snapshotAt else s.clock;
  }

  lemma QualifySound(env: Environment, start: nat, s: Session, c: Contract, a: Authority, pr: nat, head: string,
                     snapshot: Option<seq<Run>>, snapshotAt: nat, required: seq<string>, scope: Evidence,
                     until: nat)
    returns (e: Evidence)
    requires Loaded(c) && start <= s.clock && CachesObserved(env, start, s) && until <= s.clock
    requires snapshot.Some? ==> start <= snapshotAt < s.clock && RunsAt(env, snapshotAt, head) == Ok(snapshot.value)
    requires start <= scope.pullAt < until && PullAt(env, scope.pullAt, pr) == Ok(scope.pull)
    requires AtHead(scope.pull, head)
    requires ProvesScope(env, start, until, pr, scope) && ProvesTrust(start, s.clock, a, pr, scope)
    requires AllKnown(c.gates, required)
    requires Required(c, scope.changed) == Ok(required)
    requires Required(c, scope.original).Ok? && Covers(required, Required(c, scope.original).value)
    ensures var r := Qualify(env, s, c, a, pr, head, snapshot, scope.pull, scope.changed, required);
            && Later(env, start, s, r.s)
            && e.pullAt == scope.pullAt && e.changed == scope.changed
            && (r.result.Ok? ==> r.result.value.required == required)
            && (r.result.Ok? && r.result.value.state.Success? ==> Proves(env, start, r.s.clock, c, a, pr, head, e))
  {
    hide CachesObserved, GetTestMerge, RunsFor, Loaded, AllKnown, JudgeAll, Required, Covers, Sharding.IsSha, BaseOf,
         PathsOf, FilesAt, RunsAt, CommitAt, PullAt, GateProven, Applicable;
    e := scope;
    MergeSound(env, start, s, scope.pull, head);
    var merge := GetTestMerge(env, s, scope.pull, head);
    if merge.result.Ok? {
      LaterClock(env, start, s, merge.s);
      var runsAt := RunsForward(env, start, merge.s, head, snapshot, snapshotAt);
      var runs := RunsFor(env, merge.s, head, snapshot);
      LaterTrans(env, start, s, merge.s, runs.s);
      if runs.result.Ok? {
        LaterClock(env, start, merge.s, runs.s);
        e := scope.(base := BaseOf(scope.pull).value, commitAt := s.clock, runs := runs.result.value, runsAt := runsAt);
        var m := MatterOf(c, a, pr, head, e);
        LoopSound(env, start, runs.s, m, required);
        var (t, s') := JudgeAll(env, runs.s, m, required);
        LaterClock(env, start, runs.s, s');
        LaterTrans(env, start, s, runs.s, s');
        if t.failures == [] && t.waiting == [] {
          AllGates(env, start, s'.clock, c, m, e, required);
        }
      }
    }
  }

  lemma AllGates(env: Environment, start: nat, until: nat, c: Contract, m: Matter, e: Evidence, required: seq<string>)
    requires Loaded(c) && m.gates == c.gates && AllKnown(c.gates, required)
    requires Required(c, e.changed) == Ok(required)
    requires Required(c, e.original).Ok? && Covers(required, Required(c, e.original).value)
    requires forall i :: 0 <= i < |required| ==> GateProven(env, start, until, m, GateOf(m.gates, required[i]))
    ensures forall i ::
              0 <= i < |c.gates| && (Applicable(c.gates[i], c, e.original) || Applicable(c.gates[i], c, e.changed)) ==>
                          GateProven(env, start, until, m, c.gates[i])
  {
    hide Required, Loaded, GateProven, Applicable, AllKnown, Known;
    forall i | 0 <= i < |c.gates| && (Applicable(c.gates[i], c, e.original) || Applicable(c.gates[i], c, e.changed))
      ensures GateProven(env, start, until, m, c.gates[i])
    {
      if Applicable(c.gates[i], c, e.original) {
        ApplicableRequired(c, e.original, i);
      } else {
        ApplicableRequired(c, e.changed, i);
      }
      assert c.gates[i].id in required;
      var j :| 0 <= j < |required| && required[j] == c.gates[i].id;
      GateOfDistinct(c, i);
    }
  }
}
