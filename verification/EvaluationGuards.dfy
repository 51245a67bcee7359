/** In a batch the two subset guards of an evaluation never fire, from its first read to its last gate. */
module EvaluationGuards {
  import opened Wrappers
  import opened Pagination
  import opened Routing
  import opened Runs
  import opened GitHub
  import opened Evaluation
  import EvaluationBatch
  import Glob
  import Sharding

  /** Not the text of a subset guard. */
  predicate Other(text: string) { text != SUBSET_ERROR && text != V09_SUBSET_ERROR }

  /** A call that raises no subset error. */
  predicate Unguarded<T>(r: Result<T>) { r.Err? ==> Other(r.error) }

  /** The trusted sources do not use the texts of the guards, which belong to the evaluation. */
  ghost predicate OwnTexts(a: Authority) {
    && (forall paths :: Unguarded(a.edits(paths)) && Unguarded(a.full(paths)))
    && (forall t, pr, edits :: Unguarded(a.approved(t, pr, edits)))
  }

  // ---------------------------------------------------------------- the other errors

  lemma ReadTexts()
    ensures Other("GitHub API unavailable") && Other("GitHub API 404") && Other("unbounded GitHub pagination")
    ensures Other("PR file entry lacks filename") && Other("renamed PR file lacks previous_filename")
  {
  }

  lemma RuleTexts()
    ensures Other("invalid empty/whitespace path pattern") && Other("unsupported path-pattern syntax")
    ensures Other("unsafe changed path") && Other("changed-path inventory must be a list of nonempty paths")
  {
  }

  lemma JobTexts()
    ensures Other("required job absent") && Other("required job is not completed/success")
    ensures Other("duplicate GitHub job names are ambiguous")
  {
  }

  lemma MergeTexts()
    ensures Other("PR base metadata missing") && Other("PR base identity incomplete")
    ensures Other("qualification PR is not open") && Other("qualification base must be protected main")
    ensures Other("PR synthetic test-merge commit unavailable")
    ensures Other("PR synthetic merge parents do not match current base/head")
  {
  }

  lemma ScopeTexts()
    ensures Other("PR head moved") && Other("GitHub PR changed-file count unavailable or malformed")
    ensures Other("GitHub PR file inventory incomplete or duplicated")
    ensures Other("head SHA must be an exact 40-hex commit")
  {
  }

  lemma NoteTexts()
    ensures Other("PR changes more than 3,000 files") && Other("Rename removes protected source paths")
    ensures Other("PR changes executable qualification authority")
    ensures Other("PR base changed") && Other("unknown completed conclusion")
  {
  }

  lemma ConclusionText(conclusion: string)
    ensures Other("exact-head PR run concluded " + conclusion)
  {
    // The texts differ at index 26.
    assert ("exact-head PR run concluded " + conclusion)[26] == 'd';
    assert SUBSET_ERROR[26] == 's' && V09_SUBSET_ERROR[26] == 'y';
  }

  lemma {:induction false} FetchedUnguarded<T>(server: Server<T>, page: nat, files: bool)
    requires 1 <= page <= LAST_PAGE && forall p :: page <= p ==> Unguarded(server(p))
    ensures Unguarded(Fetched(server, page, files))
    decreases LAST_PAGE - page
  {
    hide Other, Fetched;
    ReadTexts();
    FetchedUnfold(server, page, files);
    if page < LAST_PAGE { FetchedUnguarded(server, page + 1, files); }
  }

  lemma ObservedUnguarded<T>(env: Environment, t: nat, read: Snapshot -> seq<T>, files: bool)
    ensures Unguarded(Observed(env, t, read, files))
  {
    hide Other, Fetched;
    ReadTexts();
    FetchedUnguarded(ListServer(env, t, read), 1, files);
  }

  lemma {:induction false} NamesUnguarded(files: seq<FileEntry>, sources: bool)
    ensures Unguarded(Names(files, sources))
  {
    hide Other;
    ReadTexts();
    if files != [] { NamesUnguarded(files[1..], sources); }
  }

  lemma {:induction false} FoldUnguarded(path: string, rules: seq<string>, selected: bool)
    ensures Unguarded(Fold(path, rules, selected))
    decreases |rules|
  {
    hide Other, Matches, Glob.Supported, Glob.Emitted, Glob.Space;
    RuleTexts();
    if rules != [] {
      FoldUnguarded(path, rules[1..], if Matches(rules[0], path) then !Negative(rules[0]) else selected);
    }
  }

  lemma {:induction false} AnyUnguarded(paths: seq<string>, rules: seq<string>)
    ensures Unguarded(AnySelected(paths, rules))
  {
    hide Other, Fold, SafePath;
    RuleTexts();
    if paths != [] {
      FoldUnguarded(paths[0], rules, false);
      AnyUnguarded(paths[1..], rules);
    }
  }

  lemma {:induction false} SpecialisedUnguarded(gates: seq<Gate>, paths: seq<string>)
    ensures Unguarded(Specialised(gates, paths))
    decreases |gates|
  {
    hide Other, AnySelected;
    if gates != [] {
      var n := |gates| - 1;
      AnyUnguarded(paths, gates[n].paths);
      SpecialisedUnguarded(gates[..n], paths);
    }
  }

  lemma RequiredUnguarded(c: Contract, paths: seq<string>)
    ensures Unguarded(Required(c, paths))
  {
    hide Other, Specialised, InOrder;
    RuleTexts();
    SpecialisedUnguarded(c.gates, paths);
  }

  lemma VerdictUnguarded(env: Environment, s: Session, gate: Gate, run: Run, a: Authority, paths: seq<string>)
    requires OwnTexts(a)
    ensures Unguarded(GetJobsVerdict(env, s, gate, run, a, paths).result)
  {
    hide Other, Observed, Named, Succeeded, DistinctNames;
    JobTexts();
    ObservedUnguarded(env, s.clock, (w: Snapshot) => SeqAt(w.jobs, run.id), false);
  }

  lemma MergeUnguarded(env: Environment, s: Session, pull: PullRequest, head: string)
    ensures Unguarded(GetTestMerge(env, s, pull, head).result)
  {
    hide Other, Sharding.IsSha;
    ReadTexts();
    MergeTexts();
  }

  // ---------------------------------------------------------------- the file list of the batch

  /** The batch has this list for the PR. */
  ghost predicate Has(s: Session, pr: nat, files: seq<FileEntry>) {
    s.files.Some? && pr in s.files.value && s.files.value[pr] == files
  }

  lemma PathsOfCached(env: Environment, s: Session, pr: nat, files: seq<FileEntry>, sources: bool)
    requires Has(s, pr, files)
    ensures GetPaths(env, s, pr, sources) == Reply(PathsOf(files, sources), s) && Unguarded(PathsOf(files, sources))
  {
    hide Names, Other;
    NamesUnguarded(files, sources);
  }

  /** The first read leaves in the batch the list whose destinations it returned. */
  lemma FirstRead(env: Environment, s: Session, pr: nat) returns (files: seq<FileEntry>)
    requires s.files.Some?
    ensures var r := GetPaths(env, s, pr, false);
            && Unguarded(r.result)
            && (r.result.Ok? ==> Has(r.s, pr, files) && PathsOf(files, false) == r.result)
  {
    hide Names, Other, Observed;
    ObservedUnguarded(env, s.clock, (w: Snapshot) => SeqAt(w.files, pr), true);
    var read := GetFiles(env, s, pr).result;
    files := if read.Ok? then read.value else [];
    NamesUnguarded(files, false);
  }

  lemma GuardHolds(env: Environment, s: Session, pr: nat, files: seq<FileEntry>, changed: seq<string>)
    requires Has(s, pr, files) && PathsOf(files, false) == Ok(changed)
    ensures var wide := GetPaths(env, s, pr, true);
            && wide.s == s && Unguarded(wide.result)
            && (wide.result.Ok? ==> Covers(wide.result.value, changed))
  {
    hide PathsOf, Other, Covers, GetPaths;
    PathsOfCached(env, s, pr, files, true);
    if PathsOf(files, true).Ok? { EvaluationBatch.ProjectionCovers(files); }
  }

  lemma ScopeUnguarded(env: Environment, s: Session, c: Contract, pr: nat, head: string) returns (files: seq<FileEntry>)
    requires s.files.Some?
    ensures var scope := GetScope(env, s, c, pr, head);
            && Unguarded(scope.result)
            && (scope.result.Ok? && scope.result.value.Refused? ==> NotesOther(scope.result.value.e.failures))
            && (scope.result.Ok? && scope.result.value.Scoped? ==>
                  Has(scope.s, pr, files) && PathsOf(files, false) == Ok(scope.result.value.changed))
  {
    hide Other, GetPaths, PathsOf, Required, Covers, Distinct;
    ReadTexts();
    ScopeTexts();
    NoteTexts();
    var p := GetPull(env, s, pr);
    files := FirstRead(env, p.s, pr);
    var paths := GetPaths(env, p.s, pr, false);
    if paths.result.Ok? {
      GuardHolds(env, paths.s, pr, files, paths.result.value);
      RequiredUnguarded(c, paths.result.value);
      var wide := GetPaths(env, paths.s, pr, true);
      if wide.result.Ok? { RequiredUnguarded(c, wide.result.value); }
    }
  }

  // ---------------------------------------------------------------- the gates

  ghost predicate NotesOther(notes: seq<Note>) { forall i :: 0 <= i < |notes| ==> Other(notes[i].text) }

  lemma JudgeUnguarded(env: Environment, s: Session, m: Matter, gate: Gate, files: seq<FileEntry>)
    requires OwnTexts(m.a) && Has(s, m.pr, files) && PathsOf(files, false) == Ok(m.changed)
    ensures var (v, s') := Judge(env, s, m, gate); Has(s', m.pr, files) && (v.Fail? ==> Other(v.text))
  {
    hide Other, OwnTexts, GetPaths, PathsOf, Covers, JobsVerdict, JobsAt, Newest, HasStaleRun, SupportedConclusion,
         IsV09;
    NoteTexts();
    GuardHolds(env, s, m.pr, files, m.changed);
    var newest := Newest(m.runs, TargetOf(m, gate));
    if newest.Some? {
      ConclusionText(TextOf(newest.value.conclusion));
      var paths := GetJobPaths(env, s, m, gate.id);
      if paths.result.Ok? { VerdictUnguarded(env, s, gate, newest.value, m.a, paths.result.value); }
    }
  }

  lemma NoNotes()
    ensures NotesOther([])
  {
  }

  lemma NotesMore(t: Tally, v: Verdict, id: string)
    requires NotesOther(t.failures) && (v.Fail? ==> Other(v.text))
    ensures NotesOther(Record(t, id, v).failures)
  {
    hide Other;
  }

  lemma {:induction false} GatesUnguarded(env: Environment, s: Session, m: Matter, ids: seq<string>,
                                          files: seq<FileEntry>)
    requires OwnTexts(m.a) && Has(s, m.pr, files) && PathsOf(files, false) == Ok(m.changed) && AllKnown(m.gates, ids)
    ensures var (t, s') := JudgeAll(env, s, m, ids); Has(s', m.pr, files) && NotesOther(t.failures)
    decreases |ids|
  {
    hide Other, OwnTexts, PathsOf, Has, Judge, Known, NotesOther;
    NoNotes();
    if ids != [] {
      var n := |ids| - 1;
      GatesUnguarded(env, s, m, ids[..n], files);
      var (t, s1) := JudgeAll(env, s, m, ids[..n]);
      JudgeUnguarded(env, s1, m, GateOf(m.gates, ids[n]), files);
      NotesMore(t, Judge(env, s1, m, GateOf(m.gates, ids[n])).0, ids[n]);
    }
  }

  /**
   From a session with a file cache, whatever happens on GitHub meanwhile, an evaluation raises no
   subset error and none of its failures carries the text of one.
   */
  lemma BatchGuardsNeverFire(env: Environment, s: Session, c: Contract, a: Authority, pr: nat, head: string,
                             snapshot: Option<seq<Run>>)
    requires s.files.Some? && OwnTexts(a)
    ensures var r := Evaluate(env, s, c, a, pr, head, snapshot).result;
            Unguarded(r) && (r.Ok? ==> NotesOther(r.value.failures))
  {
    hide Other, OwnTexts, GetScope, GetTestMerge, PathsOf, Observed, JudgeAll, AllKnown, Sharding.IsSha;
    ScopeTexts();
    NoteTexts();
    var files := ScopeUnguarded(env, s, c, pr, head);
    var scope := GetScope(env, s, c, pr, head);
    if scope.result.Ok? && scope.result.value.Scoped? {
      var Scoped(pull, changed, original, required) := scope.result.value;
      TrustedUnguarded(scope.s, a, pr, original);
      var trusted := GetTrusted(scope.s, a, pr, original);
      RequiredKnown(env, s, c, pr, head);
      QualifyUnguarded(env, trusted.s, c, a, pr, head, snapshot, pull, changed, required, files);
    }
  }

  lemma TrustedUnguarded(s: Session, a: Authority, pr: nat, original: seq<string>)
    requires OwnTexts(a)
    ensures Unguarded(GetTrusted(s, a, pr, original).result)
  {
    hide Other;
  }

  lemma QualifyUnguarded(env: Environment, s: Session, c: Contract, a: Authority, pr: nat, head: string,
                         snapshot: Option<seq<Run>>,
                         pull: PullRequest, changed: seq<string>, required: seq<string>, files: seq<FileEntry>)
    requires OwnTexts(a) && Has(s, pr, files) && PathsOf(files, false) == Ok(changed) && AllKnown(c.gates, required)
    ensures var r := Qualify(env, s, c, a, pr, head, snapshot, pull, changed, required).result;
            Unguarded(r) && (r.Ok? ==> NotesOther(r.value.failures))
  {
    hide Other, OwnTexts, PathsOf, Observed, JudgeAll, AllKnown, MergeCandidate;
    MergeUnguarded(env, s, pull, head);
    var merge := GetTestMerge(env, s, pull, head);
    ObservedUnguarded(env, merge.s.clock, (w: Snapshot) => SeqAt(w.runs, head), false);
    var runs := RunsFor(env, merge.s, head, snapshot);
    if merge.result.Ok? && runs.result.Ok? {
      GatesUnguarded(env, runs.s, Matter(c.gates, a, pr, head, changed, merge.result.value, runs.result.value),
                     required, files);
    }
  }
}
