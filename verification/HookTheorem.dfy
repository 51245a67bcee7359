/**
 The promise of the hook analysis over whole executions of `main`: a failing hook cannot be lost, as
 long as nothing ends the process, and what a reader has to trust for that.
 */
module HookTheorem {
  import opened Wrappers
  import opened PythonFragment
  import opened HookAnalyser
  import opened HookSoundness

  lemma {:induction false} ExecuteConcat(a: seq<Stmt>, b: seq<Stmt>, st: State, w: World, fuel: nat)
    ensures ExecuteBlock(a + b, st, w, fuel) ==
            var r := ExecuteBlock(a, st, w, fuel);
            if r.out.Normal? then ExecuteBlock(b, r.st, w, fuel) else r
  {
    hide Execute;
    if a == [] {
      assert a + b == b;
    } else {
      assert (a + b)[1..] == a[1..] + b && (a + b)[0] == a[0];
      var r := Execute(a[0], st, w, fuel);
      ExecuteConcat(a[1..], b, r.st, w, fuel);
    }
  }

  lemma BlockOfOne(s: Stmt, st: State, w: World, fuel: nat)
    ensures ExecuteBlock([s], st, w, fuel) == Execute(s, st, w, fuel)
  {
    assert [s][1..] == [];
    var r := Execute(s, st, w, fuel);
    assert ExecuteBlock([], r.st, w, fuel) == Run(Normal, r.st);
  }

  lemma BlockOfTwo(a: Stmt, b: Stmt, st: State, w: World, fuel: nat)
    ensures ExecuteBlock([a, b], st, w, fuel) ==
            var r := Execute(a, st, w, fuel);
            if r.out.Normal? then Execute(b, r.st, w, fuel) else r
  {
    assert [a, b][1..] == [b] && [b][1..] == [];
    var r := Execute(a, st, w, fuel);
    if r.out.Normal? {
      var rb := Execute(b, r.st, w, fuel);
      assert ExecuteBlock([], rb.st, w, fuel) == Run(Normal, rb.st);
    }
  }

  // ---------------------------------------------------------------- expressions without the list

  /** Safe to evaluate, and without any mention of the list. */
  predicate Inert(e: Expr, t: Terms) { Safe(e, t) && !Mentions(e) }

  predicate AllInert(es: seq<Expr>, t: Terms) { forall i :: 0 <= i < |es| ==> Inert(es[i], t) }

  lemma InertName(x: string, t: Terms)
    requires x != FAILURES
    ensures Inert(Name(x), t)
  {
  }

  lemma InertConstant(text: string, t: Terms)
    ensures Inert(Constant(text), t)
  {
  }

  lemma InertAttribute(v: Expr, attr: string, t: Terms)
    requires Inert(v, t)
    ensures Inert(Attribute(v, attr), t)
  {
    UnmentionedClean(v);
  }

  lemma InertParts(es: seq<Expr>, t: Terms)
    requires AllInert(es, t)
    ensures Inert(Operation(es), t) && Inert(Boolean(es), t) && Inert(Format(es), t) && Inert(Display(es), t)
  {
    hide Worst, Lone;
    UnmentionedAll(es);
  }

  lemma InertCall(f: Expr, args: seq<Expr>, names: seq<string>, t: Terms)
    requires Inert(f, t) && AllInert(args, t) && !ExitCall(Call(f, args, names))
    ensures Inert(Call(f, args, names), t)
  {
    hide Worst;
    assert Mentions(Name(FAILURES));
    UnmentionedClean(f);
    UnmentionedAll(args);
  }

  lemma InertAssign(x: string, v: Expr, t: Terms)
    requires x != FAILURES && x !in t.names && Inert(v, t)
    ensures Sound(Assign([Name(x)], v), t)
  {
    var s := Assign([Name(x)], v);
    assert Own(s) == [Name(x), v];
    InertName(x, t);
  }

  lemma InertDo(e: Expr, t: Terms)
    requires Inert(e, t)
    ensures Sound(Do(e), t)
  {
    assert Own(Do(e)) == [e];
  }

  // ---------------------------------------------------------------- the hook

  /** The hook ran and reported failure. */
  predicate Failed(st: State) {
    "development_result" in st.vars && st.vars["development_result"].Process? && st.vars["development_result"].code != 0
  }

  /** A state in which the list exists and only its variable reaches it. */
  ghost predicate Owned(st: State) { Guarded(st) && FAILURES in st.vars }

  function Stream(stream: string): Expr { Attribute(Name("development_result"), stream) }

  function Strip(stream: string): Expr { Attribute(Stream(stream), "strip") }

  /** The names that the canonical statements bind keep their meaning. */
  predicate Apart(t: Terms) { {"development_result", "details", "failure", FAILURES} !! t.names }

  lemma CallSound(t: Terms)
    requires Apart(t)
    ensures Sound(HOOK_CALL, t)
  {
    hide Sound, Inert;
    var call := HOOK_CALL.value;
    ArgumentsInert(t);
    InertName("subprocess", t);
    InertAttribute(Name("subprocess"), "run", t);
    InertCall(call.func, call.args, call.names, t);
    InertAssign("development_result", call, t);
  }

  lemma ArgumentsInert(t: Terms)
    ensures AllInert(HOOK_CALL.value.args, t)
  {
    hide Inert;
    InertName("sys", t);
    InertName("str", t);
    InertName("ROOT", t);
    InertAttribute(Name("sys"), "executable", t);
    InertConstant("tools/check_development_workflow.py", t);
    InertConstant("False", t);
    InertConstant("True", t);
    InertParts([Name("ROOT"), Constant("tools/check_development_workflow.py")], t);
    InertCall(Name("str"), [Operation([Name("ROOT"), Constant("tools/check_development_workflow.py")])], [], t);
    InertCall(Name("str"), [Name("ROOT")], [], t);
    InertParts(HOOK_CALL.value.args[0].elts, t);
  }

  const RUN := Attribute(Name("subprocess"), "run")

  const STR := Name("str")

  lemma ListedName(x: string, callees: set<Expr>)
    ensures Listed(Name(x), callees) && Listed(Constant(x), callees)
  {
  }

  lemma ListedAttribute(x: string, attr: string, callees: set<Expr>)
    ensures Listed(Attribute(Name(x), attr), callees)
  {
  }

  lemma ListedParts(es: seq<Expr>, callees: set<Expr>)
    requires AllListed(es, callees)
    ensures Listed(Operation(es), callees) && Listed(Display(es), callees)
  {
  }

  lemma CallListed(f: Expr, args: seq<Expr>, names: seq<string>, callees: set<Expr>)
    requires f in callees && Listed(f, callees) && AllListed(args, callees)
    ensures Listed(Call(f, args, names), callees)
  {
  }

  lemma HookListed(callees: set<Expr>)
    requires RUN in callees && STR in callees
    ensures CallsListed(HOOK_CALL, callees)
  {
    hide Listed;
    var call := HOOK_CALL.value;
    ListedName("ROOT", callees);
    ListedName("tools/check_development_workflow.py", callees);
    ListedName("str", callees);
    ListedName("False", callees);
    ListedName("True", callees);
    ListedAttribute("sys", "executable", callees);
    ListedAttribute("subprocess", "run", callees);
    ListedParts([Name("ROOT"), Constant("tools/check_development_workflow.py")], callees);
    CallListed(STR, [Operation([Name("ROOT"), Constant("tools/check_development_workflow.py")])], [], callees);
    CallListed(STR, [Name("ROOT")], [], callees);
    ListedParts(call.args[0].elts, callees);
    CallListed(RUN, call.args, call.names, callees);
    ListedName("development_result", callees);
    assert Own(HOOK_CALL) == [Name("development_result"), call];
  }

  lemma InertStrip(stream: string, t: Terms)
    ensures Inert(Call(Strip(stream), [], []), t)
  {
    hide Inert;
    InertName("development_result", t);
    InertAttribute(Name("development_result"), stream, t);
    InertAttribute(Stream(stream), "strip", t);
    InertCall(Strip(stream), [], [], t);
  }

  lemma DetailsSound(t: Terms)
    requires Apart(t)
    ensures Sound(HOOK_DETAILS, t)
  {
    hide Inert, Sound;
    InertStrip("stderr", t);
    InertStrip("stdout", t);
    assert HOOK_DETAILS.value.parts == [Call(Strip("stderr"), [], []), Call(Strip("stdout"), [], [])];
    InertParts(HOOK_DETAILS.value.parts, t);
    InertAssign("details", HOOK_DETAILS.value, t);
  }

  lemma TestTrue(st: State, w: World)
    requires Failed(st)
    ensures Evaluate(HOOK_TEST, st, w) == Val(Truth(true), st)
  {
    var r := Evaluate(HOOK_TEST.left, st, w);
    assert Evaluate(Name("development_result"), st, w) == Val(st.vars["development_result"], st);
    assert r == Val(Number(st.vars["development_result"].code), st);
  }

  /** The methods of the finished process that the hook calls only yield a value or raise an error. */
  ghost predicate StripsTame(w: World) { !w.implicit && Strip("stderr") in w.tame && Strip("stdout") in w.tame }

  /** Time passed, and nothing else happened. */
  predicate Undisturbed(st: State, st': State) { st' == st.(tick := st'.tick) }

  lemma StripStays(stream: string, st: State, w: World)
    requires !st.leaked && Failed(st) && !w.implicit && Strip(stream) in w.tame && stream != "returncode"
    ensures var r := Evaluate(Call(Strip(stream), [], []), st, w);
            !r.Exits? && Undisturbed(st, r.st) && (r.Val? ==> !Reaching(r.v))
  {
    var process := st.vars["development_result"];
    assert Evaluate(Name("development_result"), st, w) == Val(process, st);
    var r1 := Evaluate(Stream(stream), st, w);
    assert r1 == Outcome(Clean, st, w);
    if r1.Val? {
      var r2 := Evaluate(Strip(stream), st, w);
      assert r2 == Outcome(Clean, r1.st, w);
      assert !AppendsTo(Strip(stream), st);
      assert Root(Stream(stream)) == Some("development_result");
      assert TameCall(Strip(stream), st, w);
      if r2.Val? { assert EvaluateAll([], r2.st, w) == Vals(Clean, r2.st); }
    }
  }

  lemma StripsStay(st: State, w: World)
    requires !st.leaked && Failed(st) && StripsTame(w)
    ensures var r := EvaluateSome([Call(Strip("stderr"), [], []), Call(Strip("stdout"), [], [])], st, w);
            !r.ExitsAll? && Undisturbed(st, r.st) && (r.Vals? ==> r.reach == Clean)
  {
    hide Evaluate, Strip;
    var first, second := Call(Strip("stderr"), [], []), Call(Strip("stdout"), [], []);
    assert [first, second][1..] == [second];
    StripStays("stderr", Later(st), w);
    var st1 := if Now(st, w).truth then Later(st) else Evaluate(first, Later(st), w).st;
    StripStaysLast(second, st1, w);
  }

  lemma StripStaysLast(second: Expr, st: State, w: World)
    requires second == Call(Strip("stdout"), [], []) && !st.leaked && Failed(st) && StripsTame(w)
    ensures var r := EvaluateSome([second], st, w);
            !r.ExitsAll? && Undisturbed(st, r.st) && (r.Vals? ==> r.reach == Clean)
  {
    hide Evaluate, Strip;
    assert [second][1..] == [];
    StripStays("stdout", Later(st), w);
    assert EvaluateSome([], Later(st), w) == Vals(Clean, Later(st));
    var r := Evaluate(second, Later(st), w);
    if r.Val? { assert EvaluateSome([], r.st, w) == Vals(Clean, r.st); }
  }

  /** Collecting the details only binds them when the two methods are tame. */
  lemma DetailsEnd(st: State, w: World, fuel: nat, t: Terms)
    requires Guarded(st) && Failed(st) && StripsTame(w) && Apart(t)
    ensures Benign(st, Execute(HOOK_DETAILS, st, w, fuel), w, t, true)
    ensures !Execute(HOOK_DETAILS, st, w, fuel).out.Exited?
  {
    hide EvaluateSome, StripsTame;
    var parts := [Call(Strip("stderr"), [], []), Call(Strip("stdout"), [], [])];
    assert HOOK_DETAILS.value == Boolean(parts);
    StripsStay(st, w);
    assert !w.implicit by { NoImplicit(w); }
    var r := Evaluate(HOOK_DETAILS.value, st, w);
    assert HOOK_DETAILS.targets == [Name("details")] && HOOK_DETAILS.targets[1..] == [];
    if r.Val? { assert StoreEach([], r.v, Bind("details", r.v, r.st), w) == Run(Normal, Bind("details", r.v, r.st)); }
  }

  lemma NoImplicit(w: World)
    requires StripsTame(w)
    ensures !w.implicit
  {
  }

  lemma MessageSafe(t: Terms)
    ensures AllSafe(HOOK_APPEND.expr.args, t) && AllListed(HOOK_APPEND.expr.args, t.callees)
    ensures Worst(HOOK_APPEND.expr.args) == Clean
  {
    hide Safe, Mentions, Worst, Carries;
    InertName("details", t);
    InertConstant("development workflow alignment failed: ", t);
    var parts := [Constant("development workflow alignment failed: "), Name("details")];
    InertParts(parts, t);
    assert Listed(parts[0], t.callees) && Listed(parts[1], t.callees);
    assert HOOK_APPEND.expr.args == [Format(parts)];
    UnmentionedAll(HOOK_APPEND.expr.args);
  }

  lemma AppendRuns(st: State, w: World, fuel: nat)
    requires Owned(st)
    ensures Execute(HOOK_APPEND, st, w, fuel) ==
            var ra := EvaluateAll(HOOK_APPEND.expr.args, st, w);
            Lift(if ra.Vals? then Append(ra.reach, ra.st, w) else Aborted(ra))
  {
    hide EvaluateAll;
    assert AppendsTo(HOOK_APPEND.expr.func, st);
  }

  lemma AppendGrows(st: State, w: World, fuel: nat, t: Terms)
    requires Owned(st) && Calm(st, w, t, true)
    ensures var r := Execute(HOOK_APPEND, st, w, fuel);
            && Benign(st, r, w, t, false) && (r.out.Normal? ==> Owned(r.st) && r.st.entries > 0)
            && (!w.implicit ==> !r.out.Exited?)
  {
    hide EvaluateAll, Execute, Peaceful;
    AppendRuns(st, w, fuel);
    MessageSafe(t);
    EvaluateAllSafe(HOOK_APPEND.expr.args, st, w, t);
    if !w.implicit { MessageStays(st, w); }
  }

  lemma MessageStays(st: State, w: World)
    requires Owned(st) && !w.implicit
    ensures !EvaluateAll(HOOK_APPEND.expr.args, st, w).ExitsAll?
  {
    hide EvaluateAll;
    var none := Terms({}, {});
    MessageSafe(none);
    EvaluateAllSafe(HOOK_APPEND.expr.args, st, w, none);
  }

  /** With a failing hook, the record is its two statements. */
  lemma RecordParts(st: State, w: World, fuel: nat)
    requires Failed(st)
    ensures Execute(HOOK[1], st, w, fuel) ==
            var d := Execute(HOOK_DETAILS, Later(st), w, fuel);
            if d.out.Normal? then Execute(HOOK_APPEND, d.st, w, fuel) else d
  {
    hide Evaluate, ExecuteBlock;
    TestTrue(st, w);
    BlockOfTwo(HOOK_DETAILS, HOOK_APPEND, Later(st), w, fuel);
  }

  /** After a failing hook, the list is not empty unless something raised or ended the process. */
  lemma HookRecords(st: State, w: World, fuel: nat, t: Terms)
    requires Owned(st) && Failed(st) && Apart(t) && (!w.pries || (StripsTame(w) && Peaceful(st, w, t)))
    ensures var r := Execute(HOOK[1], st, w, fuel);
            && Benign(st, r, w, t, false) && (r.out.Normal? ==> Owned(r.st) && r.st.entries > 0)
            && (StripsTame(w) ==> !r.out.Exited?)
  {
    hide Execute, Peaceful, StripsTame;
    RecordParts(st, w, fuel);
    DetailsSound(t);
    var st1 := Later(st);
    if StripsTame(w) {
      DetailsEnd(st1, w, fuel, t);
      NoImplicit(w);
    } else {
      ExecuteSafe(HOOK_DETAILS, st1, w, fuel, t);
    }
    var d := Execute(HOOK_DETAILS, st1, w, fuel);
    BenignAfter(st, st1, d, w, t, false);
    if d.out.Normal? {
      CalmKept(st, d.st, w, t, true);
      AppendGrows(d.st, w, fuel, t);
      BenignAfter(st, d.st, Execute(HOOK_APPEND, d.st, w, fuel), w, t, false);
    }
  }

  // ---------------------------------------------------------------- the epilogue

  const PRINT := Name("print")

  lemma ReportSound(t: Terms)
    ensures Sound(REPORT, t) && (PRINT in t.callees ==> CallsListed(REPORT, t.callees))
  {
    hide Sound, Inert;
    InertName("failure", t);
    InertName("sys", t);
    InertName("print", t);
    InertConstant("ERROR: ", t);
    InertParts([Constant("ERROR: "), Name("failure")], t);
    InertAttribute(Name("sys"), "stderr", t);
    InertCall(PRINT, REPORT.expr.args, ["file"], t);
    InertDo(REPORT.expr, t);
    ReportListed(t);
  }

  lemma ReportListed(t: Terms)
    ensures PRINT in t.callees ==> CallsListed(REPORT, t.callees)
  {
    assert Own(REPORT) == [REPORT.expr];
    var args := REPORT.expr.args;
    assert args == [Format([Constant("ERROR: "), Name("failure")]), Attribute(Name("sys"), "stderr")];
    assert Listed(args[0], t.callees) && Listed(args[1], t.callees);
  }

  /** Reporting keeps the list, does not return, and does not end the process when `print` is trusted. */
  lemma {:induction false} ReportLoop(st: State, w: World, fuel: nat, t: Terms)
    requires Guarded(st) && Calm(st, w, t, PRINT in t.callees) && Apart(t)
    ensures var r := Iterate(REPORT_ALL, Direct, st, w, fuel);
            && Benign(st, r, w, t, PRINT in t.callees)
            && (r.out.Normal? || r.out.Raised? || r.out.Exited? || r.out.Timeout?)
    decreases fuel
  {
    hide Next, Execute, Peaceful, Sound, CallsListed;
    if fuel > 0 {
      CalmUnobserved(st, w, t, PRINT in t.callees);
      NextMild(Direct, st, w, t);
      NotImplicit(st, w, t);
      var next := Next(Direct, st, w);
      if next.Val? {
        var named := Store(REPORT_ALL.target, next.v, Later(next.st), w);
        assert named == Run(Normal, Bind("failure", next.v, Later(next.st)));
        ReportSound(t);
        CalmKept(st, named.st, w, t, PRINT in t.callees);
        ExecuteSafe(REPORT, named.st, w, fuel, t);
        BlockOfOne(REPORT, named.st, w, fuel);
        var b := ExecuteBlock([REPORT], named.st, w, fuel);
        BenignAfter(st, named.st, b, w, t, PRINT in t.callees);
        DoOutcome(REPORT, named.st, w, fuel);
        CalmKept(st, b.st, w, t, PRINT in t.callees);
        ReportLoop(b.st, w, fuel - 1, t);
        BenignAfter(st, b.st, Iterate(REPORT_ALL, Direct, b.st, w, fuel - 1), w, t, PRINT in t.callees);
      }
    }
  }

  lemma DoOutcome(s: Stmt, st: State, w: World, fuel: nat)
    requires s.Do?
    ensures var out := Execute(s, st, w, fuel).out; out.Normal? || out.Raised? || out.Exited?
  {
    hide Evaluate;
  }

  /** With a nonempty list, the epilogue can only return 1, raise, or end the process, the last only without trust. */
  lemma EpilogueReturnsOne(st: State, w: World, fuel: nat, t: Terms)
    requires Owned(st) && Calm(st, w, t, PRINT in t.callees) && st.entries > 0 && Apart(t)
    ensures var out := ExecuteBlock(EPILOGUE, st, w, fuel).out;
            && (out == Returned(Number(1)) || out.Raised? || out.Exited? || out.Timeout?)
            && (Peaceful(st, w, t) && PRINT in t.callees ==> !out.Exited?)
  {
    hide Iterate, Peaceful;
    var st1 := Later(st);
    assert Evaluate(Name(FAILURES), st, w) == Val(TheList, st);
    assert Evaluate(Name(FAILURES), st1, w) == Val(TheList, st1);
    CalmKept(st, st1, w, t, PRINT in t.callees);
    ReportLoop(st1, w, fuel, t);
    var loop := Execute(REPORT_ALL, st1, w, fuel);
    assert loop == Iterate(REPORT_ALL, Direct, st1, w, fuel);
    BenignAfter(st, st1, loop, w, t, PRINT in t.callees);
    BlockOfTwo(REPORT_ALL, Return(Some(Literal(1))), st1, w, fuel);
    assert Execute(Return(Some(Literal(1))), loop.st, w, fuel) == Run(Returned(Number(1)), loop.st);
  }

  // ---------------------------------------------------------------- soundness of the analysis

  /** The run got past the hook, and the hook failed. */
  ghost predicate HookFails(body: seq<Stmt>, index: nat, st: State, w: World, fuel: nat)
    requires index <= |body|
  {
    var before := ExecuteBlock(body[..index], st, w, fuel);
    var called := Execute(HOOK_CALL, before.st, w, fuel);
    before.out.Normal? && called.out.Normal? && Failed(called.st)
  }

  /** `main` returns only after running the hook, and after a failing hook it can return nothing but 1. */
  ghost predicate FailsClosed(body: seq<Stmt>, index: nat, st: State, w: World, fuel: nat)
    requires index <= |body|
  {
    var before := ExecuteBlock(body[..index], st, w, fuel);
    var run := ExecuteBlock(body, st, w, fuel);
    && (run.out.Returned? ==> before.out.Normal? && Execute(HOOK_CALL, before.st, w, fuel).out.Normal?)
    && (HookFails(body, index, st, w, fuel) && run.out.Returned? ==> run.out == Returned(Number(1)))
  }

  /** After a failing hook nothing ends the process before the report. */
  ghost predicate Survives(body: seq<Stmt>, index: nat, st: State, w: World, fuel: nat)
    requires index <= |body|
  {
    HookFails(body, index, st, w, fuel) ==> !ExecuteBlock(body, st, w, fuel).out.Exited?
  }

  lemma SplitBody(body: seq<Stmt>, index: nat)
    requires ConnectedAt(body, index)
    ensures body == body[..index] + ([HOOK_CALL] + ([HOOK[1]] + (body[index + 2..|body| - 3] + EPILOGUE)))
  {
    assert HOOK == [HOOK[0]] + [HOOK[1]];
    assert body == body[..index] + body[index..index + 2] + body[index + 2..|body| - 3] + body[|body| - 3..];
  }

  /** The part of the run from the recorded failure on. */
  lemma AfterHook(rest: seq<Stmt>, st: State, w: World, fuel: nat, t: Terms)
    requires Owned(st) && SoundBlock(rest, t) && st.entries > 0 && Apart(t)
    requires Calm(st, w, t, PRINT in t.callees && BlockListed(rest, t.callees))
    ensures var out := ExecuteBlock(rest + EPILOGUE, st, w, fuel).out;
            && (out.Returned? ==> out == Returned(Number(1)))
            && (Peaceful(st, w, t) && PRINT in t.callees && BlockListed(rest, t.callees) ==> !out.Exited?)
  {
    hide ExecuteBlock, Peaceful;
    ExecuteConcat(rest, EPILOGUE, st, w, fuel);
    ExecuteBlockSafe(rest, st, w, fuel, t);
    var r := ExecuteBlock(rest, st, w, fuel);
    if r.out.Normal? {
      CalmKept(st, r.st, w, t, PRINT in t.callees && BlockListed(rest, t.callees));
      EpilogueReturnsOne(r.st, w, fuel, t);
    }
  }

  /** What a reader trusts: the two methods and `print` of the canonical statements, and the listed callees. */
  ghost predicate Trusted(w: World, t: Terms) { StripsTame(w) && Trusts(w, t) && PRINT in t.callees }

  /** The run of a body in three parts: up to the hook call, the record, the rest. */
  lemma RunInParts(body: seq<Stmt>, index: nat, st: State, w: World, fuel: nat)
    requires ConnectedAt(body, index)
    ensures var rest := body[index + 2..|body| - 3];
            var before := ExecuteBlock(body[..index], st, w, fuel);
            var called := Execute(HOOK_CALL, before.st, w, fuel);
            var recorded := Execute(HOOK[1], called.st, w, fuel);
            ExecuteBlock(body, st, w, fuel) ==
            if !before.out.Normal? then before
            else if !called.out.Normal? then called
            else if !recorded.out.Normal? then recorded
            else ExecuteBlock(rest + EPILOGUE, recorded.st, w, fuel)
  {
    hide ExecuteBlock, Execute;
    var rest := body[index + 2..|body| - 3];
    var tail := [HOOK[1]] + (rest + EPILOGUE);
    SplitBody(body, index);
    ExecuteConcat(body[..index], [HOOK_CALL] + tail, st, w, fuel);
    var before := ExecuteBlock(body[..index], st, w, fuel);
    ExecuteConcat([HOOK_CALL], tail, before.st, w, fuel);
    BlockOfOne(HOOK_CALL, before.st, w, fuel);
    var called := Execute(HOOK_CALL, before.st, w, fuel);
    ExecuteConcat([HOOK[1]], rest + EPILOGUE, called.st, w, fuel);
    BlockOfOne(HOOK[1], called.st, w, fuel);
  }

  /** Every call from the hook on is of a listed callee or canonical. */
  predicate AllTrusted(rest: seq<Stmt>, t: Terms) {
    {RUN, STR, PRINT} <= t.callees && BlockListed(rest, t.callees)
  }

  /** The world does not pry, or it justifies the trust and every call is of a trusted callee. */
  ghost predicate Fit(rest: seq<Stmt>, st: State, w: World, t: Terms) {
    !w.pries || (Trusted(w, t) && AllTrusted(rest, t) && Peaceful(st, w, t))
  }

  /** From the hook call on, in a state where only the variable reaches the list. */
  lemma FromHook(rest: seq<Stmt>, st: State, w: World, fuel: nat, t: Terms)
    requires Owned(st) && SoundBlock(rest, t) && Apart(t) && Fit(rest, st, w, t)
    ensures var called := Execute(HOOK_CALL, st, w, fuel);
            var recorded := Execute(HOOK[1], called.st, w, fuel);
            var out := ExecuteBlock(rest + EPILOGUE, recorded.st, w, fuel).out;
            && !called.out.Returned?
            && (called.out.Normal? && Failed(called.st) ==>
                  && !recorded.out.Returned?
                  && (recorded.out.Normal? && out.Returned? ==> out == Returned(Number(1)))
                  && (Peaceful(st, w, t) && StripsTame(w) && PRINT in t.callees && BlockListed(rest, t.callees) ==>
                        !recorded.out.Exited? && (recorded.out.Normal? ==> !out.Exited?)))
  {
    hide ExecuteBlock, Execute, Peaceful, StripsTame, BlockListed, SoundBlock, Guarded;
    CallSound(t);
    assert Guarded(st);
    if AllTrusted(rest, t) { HookListed(t.callees); }
    ExecuteSafe(HOOK_CALL, st, w, fuel, t);
    var called := Execute(HOOK_CALL, st, w, fuel);
    if called.out.Normal? && Failed(called.st) {
      if Peaceful(st, w, t) { PeaceKept(st, called.st, w, t); }
      HookRecords(called.st, w, fuel, t);
      var recorded := Execute(HOOK[1], called.st, w, fuel);
      if Peaceful(st, w, t) { PeaceKept(called.st, recorded.st, w, t); }
      if recorded.out.Normal? { AfterHook(rest, recorded.st, w, fuel, t); }
    }
  }

  /**
   Soundness from the hook on, when the list is unaliased there: a failing hook makes `main` return
   nothing but 1, in every world that does not pry; and in one that justifies the trust, where all later calls are
   listed and their names still unbound, nothing ends the process first.
   */
  lemma HookPropagates(body: seq<Stmt>, index: nat, st: State, w: World, fuel: nat, t: Terms)
    requires ConnectedAt(body, index) && BlockDisciplined(body[index + 2..|body| - 3])
    requires Apart(t) && SparesBlock(body[index + 2..|body| - 3], t.names)
    requires var before := ExecuteBlock(body[..index], st, w, fuel);
             before.out.Normal? ==> Owned(before.st) && Fit(body[index + 2..|body| - 3], before.st, w, t)
    ensures FailsClosed(body, index, st, w, fuel)
    ensures && Trusted(w, t)
            && BlockListed(body[index + 2..|body| - 3], t.callees)
            && Unbound(body, index, st, w, fuel, t) ==>
              Survives(body, index, st, w, fuel)
  {
    hide ExecuteBlock, Execute, Trusts, StripsTame, BlockListed, Failed, Guarded, BlockClobbers, BlockHasExit,
         BlockDisciplined, SparesBlock;
    var rest := body[index + 2..|body| - 3];
    NoReturnBlock(body[..index], st, w, fuel);
    RunInParts(body, index, st, w, fuel);
    var before := ExecuteBlock(body[..index], st, w, fuel);
    if before.out.Normal? { FromHook(rest, before.st, w, fuel, t); }
  }

  /** None of the names is bound when the run reaches the hook. */
  ghost predicate Unbound(body: seq<Stmt>, index: nat, st: State, w: World, fuel: nat, t: Terms)
    requires index <= |body|
  {
    forall x <- t.names :: x !in ExecuteBlock(body[..index], st, w, fuel).st.vars
  }

  const START := State(map[], 0, false, 0)

  /** `main` makes the list at `k` and every other statement keeps to the discipline. */
  predicate Wellbehaved(body: seq<Stmt>, index: nat, k: nat) {
    && ConnectedAt(body, index) && BlockDisciplined(body[index + 2..|body| - 3])
    && k < index && FreshList(body[k])
    && BlockDisciplined(body[..k]) && !BlockClobbers(body[..k])
    && BlockDisciplined(body[k + 1..index]) && !BlockClobbers(body[k + 1..index])
  }

  lemma PrefixParts(body: seq<Stmt>, index: nat, k: nat, names: set<string>)
    requires Wellbehaved(body, index, k) && SparesBlock(body, names)
    ensures var early, late := body[..k], body[k + 1..index];
            && body[..index] == early + ([body[k]] + late)
            && !BlockHasExit(early) && !BlockHasExit(late)
            && SparesBlock(early, names) && SparesBlock(late, names) && Spares(body[k], names)
  {
    hide Disciplined, Clobbers, HasExit, Spares;
    var early, late := body[..k], body[k + 1..index];
    assert forall i :: 0 <= i < |early| ==> early[i] == body[..index][i] && early[i] == body[i];
    assert forall i :: 0 <= i < |late| ==> late[i] == body[..index][k + 1 + i] && late[i] == body[k + 1 + i];
  }

  /** The list is unaliased at the hook, and names that the text spares are still unbound. */
  lemma PrefixOwns(body: seq<Stmt>, index: nat, k: nat, w: World, fuel: nat, t: Terms)
    requires Wellbehaved(body, index, k) && !w.pries && Apart(t) && SparesBlock(body, t.names)
    ensures var before := ExecuteBlock(body[..index], START, w, fuel);
            before.out.Normal? ==> Owned(before.st) && Unbound(body, index, START, w, fuel, t)
  {
    hide ExecuteBlock, BlockDisciplined, BlockClobbers, BlockHasExit, SparesBlock;
    var early, late := body[..k], body[k + 1..index];
    PrefixParts(body, index, k, t.names);
    ExecuteConcat(early, [body[k]] + late, START, w, fuel);
    ExecuteBlockSafe(early, START, w, fuel, t);
    var r := ExecuteBlock(early, START, w, fuel);
    if r.out.Normal? {
      ExecuteConcat([body[k]], late, r.st, w, fuel);
      BlockOfOne(body[k], r.st, w, fuel);
      var made := Execute(body[k], r.st, w, fuel);
      ExecuteBlockSafe(late, made.st, w, fuel, t);
    }
  }

  /** The whole program: in every world that does not pry, a failing hook makes `main` return nothing but 1. */
  lemma CheckerFailsClosed(body: seq<Stmt>, index: nat, k: nat, w: World, fuel: nat)
    requires Wellbehaved(body, index, k) && !w.pries
    ensures FailsClosed(body, index, START, w, fuel)
  {
    hide ExecuteBlock, Disciplined, Clobbers, HasExit;
    var none := Terms({}, {});
    forall i | 0 <= i < |body| ensures Spares(body[i], {}) { SparesNothing(body[i]); }
    PrefixOwns(body, index, k, w, fuel, none);
    HookPropagates(body, index, START, w, fuel, none);
  }

  /**
   And nothing ends the process before it does, if every call after the hook is one of the listed
   callees, the program binds none of the names these start from, and the world justifies the trust.
   */
  lemma CheckerSurvives(body: seq<Stmt>, index: nat, k: nat, w: World, fuel: nat, t: Terms)
    requires Wellbehaved(body, index, k) && !w.pries && Apart(t) && SparesBlock(body, t.names)
    requires BlockListed(body[index + 2..|body| - 3], t.callees) && Trusted(w, t)
    ensures Survives(body, index, START, w, fuel)
  {
    hide ExecuteBlock, Disciplined, Clobbers, HasExit, Trusted, BlockListed;
    PrefixOwns(body, index, k, w, fuel, t);
    HookPropagates(body, index, START, w, fuel, t);
  }

  /**
   Even code that pries into the frame loses no failure if it is never called: when the list is made
   first, every call of `main` is of a listed or canonical callee, and the world justifies the trust.
   */
  lemma CheckerUnpried(body: seq<Stmt>, index: nat, w: World, fuel: nat, t: Terms)
    requires Wellbehaved(body, index, 0) && Apart(t) && SparesBlock(body, t.names) && Trusted(w, t)
    requires AllTrusted(body[..index], t) && AllTrusted(body[index + 2..|body| - 3], t)
    ensures FailsClosed(body, index, START, w, fuel) && Survives(body, index, START, w, fuel)
  {
    hide ExecuteBlock, Disciplined, Clobbers, HasExit, Trusted, BlockListed;
    ListedPrefix(body, index, w, fuel, t);
    HookPropagates(body, index, START, w, fuel, t);
  }

  lemma ListedPrefix(body: seq<Stmt>, index: nat, w: World, fuel: nat, t: Terms)
    requires Wellbehaved(body, index, 0) && Apart(t) && SparesBlock(body, t.names) && Trusted(w, t)
    requires AllTrusted(body[..index], t)
    ensures var before := ExecuteBlock(body[..index], START, w, fuel);
            before.out.Normal? ==> Owned(before.st) && Peaceful(before.st, w, t)
  {
    hide ExecuteBlock, BlockDisciplined, BlockClobbers, BlockHasExit, SparesBlock, BlockListed;
    PrefixParts(body, index, 0, t.names);
    var late := body[1..index];
    assert body[..index] == [body[0]] + late;
    ListedTail(body[..index], t);
    ExecuteConcat([body[0]], late, START, w, fuel);
    BlockOfOne(body[0], START, w, fuel);
    var made := Execute(body[0], START, w, fuel);
    ExecuteBlockSafe(late, made.st, w, fuel, t);
    if ExecuteBlock(late, made.st, w, fuel).out.Normal? {
      PeaceKept(made.st, ExecuteBlock(late, made.st, w, fuel).st, w, t);
    }
  }

  lemma ListedTail(ss: seq<Stmt>, t: Terms)
    requires ss != [] && BlockListed(ss, t.callees)
    ensures BlockListed(ss[1..], t.callees)
  {
    hide CallsListed;
  }

  lemma {:induction false} SparesNothing(s: Stmt)
    ensures Spares(s, {})
    decreases s, 1
  {
    forall i | 0 <= i < |Own(s)| ensures SparesIn(Own(s)[i], {}) { SparesNothingIn(Own(s)[i]); }
    match s {
      case Assign(ts, _) => forall i | 0 <= i < |ts| { SparesNoTarget(ts[i]); }
      case AnnAssign(x, _) => SparesNoTarget(x);
      case AugAssign(x, _) => SparesNoTarget(x);
      case Delete(ts) => forall i | 0 <= i < |ts| { SparesNoTarget(ts[i]); }
      case If(_, b, o) =>
        SparesNothingBlock(b);
        SparesNothingBlock(o);
      case While(_, b, o) =>
        SparesNothingBlock(b);
        SparesNothingBlock(o);
      case For(x, _, b, o) =>
        SparesNoTarget(x);
        SparesNothingBlock(b);
        SparesNothingBlock(o);
      case With(_, x, b) =>
        if x.Some? { SparesNoTarget(x.value); }
        SparesNothingBlock(b);
      case Try(b, h, o, f) =>
        SparesNothingBlock(b);
        SparesNothingBlock(o);
        SparesNothingBlock(f);
        forall i | 0 <= i < |h| ensures SparesBlock(h[i].body, {}) { SparesNothingBlock(h[i].body); }
      case _ =>
    }
  }

  lemma {:induction false} SparesNothingBlock(ss: seq<Stmt>)
    ensures SparesBlock(ss, {})
    decreases ss, 0
  {
    forall i | 0 <= i < |ss| ensures Spares(ss[i], {}) { SparesNothing(ss[i]); }
  }

  lemma {:induction false} SparesNothingIn(e: Expr)
    ensures SparesIn(e, {})
    decreases e
  {
    match e {
      case Attribute(v, _) => SparesNothingIn(v);
      case Subscript(v, i) =>
        SparesNothingIn(v);
        SparesNothingIn(i);
      case Call(f, args, _) =>
        SparesNothingIn(f);
        forall i | 0 <= i < |args| ensures SparesIn(args[i], {}) { SparesNothingIn(args[i]); }
      case NotEqual(a, b) =>
        SparesNothingIn(a);
        SparesNothingIn(b);
      case Walrus(_, v) => SparesNothingIn(v);
      case Display(es) => forall i | 0 <= i < |es| ensures SparesIn(es[i], {}) { SparesNothingIn(es[i]); }
      case Boolean(es) => forall i | 0 <= i < |es| ensures SparesIn(es[i], {}) { SparesNothingIn(es[i]); }
      case Format(es) => forall i | 0 <= i < |es| ensures SparesIn(es[i], {}) { SparesNothingIn(es[i]); }
      case Operation(es) => forall i | 0 <= i < |es| ensures SparesIn(es[i], {}) { SparesNothingIn(es[i]); }
      case _ =>
    }
  }

  lemma {:induction false} SparesNoTarget(x: Expr)
    ensures SparesTarget(x, {})
    decreases x
  {
    if x.Display? {
      forall i | 0 <= i < |x.elts| ensures SparesTarget(x.elts[i], {}) { SparesNoTarget(x.elts[i]); }
    }
  }
}
