/** Which workflow runs count as evidence for a gate of a PR, and which of them is the newest. */
module Runs {
  import opened Wrappers
  import opened Routing
  import opened Sharding
  import Text

  /** A workflow run; a field that is missing or of the wrong type is `None`, a missing number is 0. */
  datatype Run = Run(id: nat, runNumber: nat, runAttempt: nat, path: Option<string>, event: Option<string>,
                     headSha: Option<string>, title: Option<string>, status: Option<string>, conclusion: Option<string>)

  // ---------------------------------------------------------------- the workflow file of a run

  function Before(s: string, c: char): (r: string)
    ensures |r| <= |s|
  {
    if s == [] || s[0] == c then [] else [s[0]] + Before(s[1..], c)
  }

  predicate Contains(s: string, needle: string) { exists i :: 0 <= i <= |s| && needle <= s[i..] }

  predicate EndsWith(s: string, suffix: string) { |suffix| <= |s| && s[|s| - |suffix|..] == suffix }

  predicate BadRefChar(c: char) { c < '!' || c == '\U{7f}' || c in "\\~^:?*[" }

  predicate BadRefPart(part: string) {
    part == "" || part[0] == '.' || EndsWith(part, ".lock")
  }

  /** A Git ref that may follow the workflow path. */
  predicate WellFormedRef(ref: string) {
    && ref != ""
    && (forall c <- ref :: !BadRefChar(c))
    && !Contains(ref, "..") && !Contains(ref, "@{") && !EndsWith(ref, ".")
    && (forall part <- Text.Split(ref, '/') :: !BadRefPart(part))
  }

  predicate WorkflowPathMatches(path: Option<string>, expected: string) {
    path.Some? &&
    var file := Before(path.value, '@');
    file == expected && (|file| == |path.value| || WellFormedRef(path.value[|file| + 1..]))
  }

  // ---------------------------------------------------------------- the PR and merge commit of a run

  function DigitChar(d: nat): char
    requires d < 10
  {
    '0' + d as char
  }

  predicate AllDigits(s: string) { forall i :: 0 <= i < |s| ==> '0' <= s[i] <= '9' }

  function Decimal(n: nat): (s: string)
    ensures s != [] && AllDigits(s)
  {
    if n < 10 then [DigitChar(n)] else Decimal(n / 10) + [DigitChar(n % 10)]
  }

  function ValueOf(s: string): (n: nat)
    requires AllDigits(s)
  {
    if s == [] then 0 else 10 * ValueOf(s[..|s| - 1]) + (s[|s| - 1] - '0') as nat
  }

  lemma {:induction false} DecimalValue(n: nat)
    ensures ValueOf(Decimal(n)) == n
  {
    var s := Decimal(n);
    if n < 10 {
      assert s[..0] == [];
    } else {
      DecimalValue(n / 10);
      assert s[..|s| - 1] == Decimal(n / 10);
    }
  }

  function TitlePrefix(gate: Gate, pr: nat): string {
    gate.workflowName + " :: PR" + Decimal(pr) + " :: "
  }

  /** The merge commit that the title of a run names for this gate and PR. */
  function TitledMerge(run: Run, gate: Gate, pr: nat): (sha: Option<string>) {
    var prefix := TitlePrefix(gate, pr);
    if run.title.None? || !(prefix <= run.title.value) then None
    else
      var sha := run.title.value[|prefix|..];
      if IsSha(sha) then Some(sha) else None
  }

  /** Digits up to a space are determined by the text. */
  lemma {:induction false} DigitRun(a: string, b: string, x: string, y: string)
    requires AllDigits(a) && AllDigits(b)
    requires a + [' '] + x == b + [' '] + y
    ensures a == b && x == y
  {
    var s, t := a + [' '] + x, b + [' '] + y;
    if a == [] || b == [] {
      assert s[0] == t[0];
      assert s[1..] == x && t[1..] == y;
    } else {
      assert s[0] == a[0] && t[0] == b[0];
      assert s[1..] == a[1..] + [' '] + x && t[1..] == b[1..] + [' '] + y;
      DigitRun(a[1..], b[1..], x, y);
      assert a == [a[0]] + a[1..] && b == [b[0]] + b[1..];
    }
  }

  lemma TitleTail(run: Run, gate: Gate, pr: nat)
    requires TitledMerge(run, gate, pr).Some?
    ensures |gate.workflowName + " :: PR"| <= |run.title.value|
    ensures run.title.value[|gate.workflowName + " :: PR"|..] ==
            Decimal(pr) + [' '] + (":: " + TitledMerge(run, gate, pr).value)
  {
    hide Decimal, IsSha;
    var title, prefix, name := run.title.value, TitlePrefix(gate, pr), gate.workflowName + " :: PR";
    var sha := TitledMerge(run, gate, pr).value;
    assert title == prefix + sha;
    assert prefix == name + (Decimal(pr) + " :: ");
    assert title == name + (Decimal(pr) + [' '] + (":: " + sha));
  }

  /** No title is accepted for two PRs of one gate, nor for two merge commits. */
  lemma TitleBindsOnePr(run: Run, gate: Gate, a: nat, b: nat)
    requires TitledMerge(run, gate, a).Some? && TitledMerge(run, gate, b).Some?
    ensures a == b && TitledMerge(run, gate, a) == TitledMerge(run, gate, b)
  {
    hide Decimal, TitledMerge, ValueOf;
    TitleTail(run, gate, a);
    TitleTail(run, gate, b);
    DigitRun(Decimal(a), Decimal(b), ":: " + TitledMerge(run, gate, a).value, ":: " + TitledMerge(run, gate, b).value);
    DecimalValue(a);
    DecimalValue(b);
  }

  // ---------------------------------------------------------------- the newest run of a gate

  /** What identifies the evidence: gate, head commit, PR number and test-merge commit. */
  datatype Target = Target(gate: Gate, head: string, pr: nat, merge: string)

  predicate OnHead(run: Run, gate: Gate, head: string) {
    WorkflowPathMatches(run.path, gate.workflow) && run.event == Some("pull_request") && run.headSha == Some(head)
  }

  predicate RunMatches(run: Run, t: Target) {
    OnHead(run, t.gate, t.head) && TitledMerge(run, t.gate, t.pr) == Some(t.merge)
  }

  /** A run of this PR and head that tested another merge commit. */
  predicate HasStaleRun(runs: seq<Run>, t: Target) {
    exists r <- runs ::
      OnHead(r, t.gate, t.head) && TitledMerge(r, t.gate, t.pr).Some? && TitledMerge(r, t.gate, t.pr) != Some(t.merge)
  }

  predicate Older(a: Run, b: Run) {
    || a.runNumber < b.runNumber
    || (a.runNumber == b.runNumber && a.runAttempt < b.runAttempt)
    || (a.runNumber == b.runNumber && a.runAttempt == b.runAttempt && a.id < b.id)
  }

  function Matching(runs: seq<Run>, t: Target): (r: seq<Run>) {
    if runs == [] then []
    else (if RunMatches(runs[0], t) then [runs[0]] else []) + Matching(runs[1..], t)
  }

  /** The first of the newest runs. */
  function Maximum(runs: seq<Run>): (r: Run)
    requires runs != []
    decreases |runs|
  {
    if |runs| == 1 then runs[0]
    else
      var best, last := Maximum(runs[..|runs| - 1]), runs[|runs| - 1];
      if Older(best, last) then last else best
  }

  function Newest(runs: seq<Run>, t: Target): (r: Option<Run>) {
    var matching := Matching(runs, t);
    if matching == [] then None else Some(Maximum(matching))
  }

  lemma {:induction false} MatchingMembers(runs: seq<Run>, t: Target, r: Run)
    ensures r in Matching(runs, t) <==> r in runs && RunMatches(r, t)
  {
    hide RunMatches;
    if runs != [] {
      MatchingMembers(runs[1..], t, r);
      assert r in runs <==> r == runs[0] || r in runs[1..];
    }
  }

  lemma {:induction false} MaximumIsNewest(runs: seq<Run>)
    requires runs != []
    ensures Maximum(runs) in runs && forall r <- runs :: !Older(Maximum(runs), r)
    decreases |runs|
  {
    if |runs| > 1 {
      var init, last := runs[..|runs| - 1], runs[|runs| - 1];
      MaximumIsNewest(init);
      assert runs == init + [last];
    }
  }

  /** The chosen run matches, none that matches is newer, and there is one whenever any matches. */
  lemma NewestMeans(runs: seq<Run>, t: Target)
    ensures Newest(runs, t).None? <==> forall r <- runs :: !RunMatches(r, t)
    ensures Newest(runs, t).Some? ==>
              var best := Newest(runs, t).value;
              best in runs && RunMatches(best, t) && forall r <- runs :: RunMatches(r, t) ==> !Older(best, r)
  {
    hide RunMatches, Older;
    forall r ensures r in Matching(runs, t) <==> r in runs && RunMatches(r, t) {
      MatchingMembers(runs, t, r);
    }
    var matching := Matching(runs, t);
    if matching == [] {
      assert forall r <- runs :: r !in matching;
    } else {
      assert matching[0] in matching;
      MaximumIsNewest(matching);
    }
  }

  /** With distinct run ids, the choice does not depend on the order of the list. */
  lemma NewestOrderIndependent(a: seq<Run>, b: seq<Run>, t: Target)
    requires forall r :: r in a <==> r in b
    requires forall r, s :: r in a && s in a && r.id == s.id ==> r == s
    ensures Newest(a, t) == Newest(b, t)
  {
    hide RunMatches, Newest;
    NewestMeans(a, t);
    NewestMeans(b, t);
    if Newest(a, t).Some? && Newest(b, t).Some? {
      var x, y := Newest(a, t).value, Newest(b, t).value;
      assert !Older(x, y) && !Older(y, x);
    }
  }
}
