/**
 What the analysis cannot see of calls: whole programs that it accepts and that lose a failing hook,
 because a call ends the process or reaches for the list, each with an execution that does so.
 */
module HookBlindSpots {
  import opened Wrappers
  import opened PythonFragment
  import opened HookAnalyser
  import opened HookSoundness
  import opened HookTheorem

  // ---------------------------------------------------------------- programs around the hook

  const FRESH := AnnAssign(Name(FAILURES), Some(Display([])))

  /** `main` with nothing but the list, the hook, the given statements and the epilogue. */
  function Program(rest: seq<Stmt>): seq<Stmt> { [FRESH] + HOOK + rest + EPILOGUE }

  lemma ProgramAccepted(rest: seq<Stmt>)
    requires !BlockHasExit(rest) && !BlockClobbers(rest)
    ensures ConnectedAt(Program(rest), 1)
    ensures Program(rest)[..1] == [FRESH] && Program(rest)[1 + 2..|Program(rest)| - 3] == rest
  {
    hide Clobbers;
    var body := Program(rest);
    assert |HOOK| == 2 && |EPILOGUE| == 3;
    assert body[..1] == [FRESH] && body[3..|body| - 3] == rest && body[|body| - 3..] == EPILOGUE && body[1..3] == HOOK;
    FreshAccepted();
  }

  lemma FreshAccepted()
    ensures !BlockHasExit([FRESH])
  {
    var es := Own(FRESH);
    assert es == [Name(FAILURES), Display([])];
    assert !ExitIn(es[0]) && !ExitIn(es[1]);
    assert !HasExit(FRESH);
  }

  function HookCallees(): set<Expr> { {RUN, STR, Strip("stderr"), Strip("stdout"), PRINT} }

  /**
   A world in which nothing raises, the hook fails and whatever reaches the list empties it; with
   `ends`, every call ends the process, and with `pries` every call reaches the list, but those of the
   given callees and of the canonical statements.
   */
  function Steady(ends: bool, pries: bool, callees: set<Expr>): World {
    World(_ => Choice(false, ends, false, false, Process(1), map[FAILURES := TheList], 0, 2), callees + HookCallees(),
          false, pries)
  }

  /** Nothing raises an error, and implicit code does nothing. */
  ghost predicate Quietly(w: World) { !w.implicit && forall n :: !w.step(n).raises }

  /** Where nothing raises an error, an expression yields a value or ends the process. */
  lemma {:induction false} NeverRaises(e: Expr, st: State, w: World)
    requires Quietly(w)
    ensures !Evaluate(e, st, w).Raises?
    ensures (forall n :: !w.step(n).exits) ==> Evaluate(e, st, w).Val?
    decreases e, 1
  {
    hide Mentions, Rebound, Root;
    match e {
      case Attribute(v, _) => NeverRaises(v, st, w);
      case Subscript(v, i) =>
        NeverRaises(v, st, w);
        NeverRaises(i, Evaluate(v, st, w).st, w);
      case Call(f, args, _) =>
        NeverRaises(f, st, w);
        var rf := if AppendsTo(f, st) then Val(Other, st) else Evaluate(f, st, w);
        NeverRaiseAll(args, rf.st, w);
      case NotEqual(a, b) =>
        NeverRaises(a, st, w);
        NeverRaises(b, Evaluate(a, st, w).st, w);
      case Walrus(_, v) => NeverRaises(v, st, w);
      case Display(es) => NeverRaiseAll(es, st, w);
      case Format(es) => NeverRaiseAll(es, st, w);
      case Boolean(es) => NeverRaiseSome(es, st, w);
      case Operation(es) => NeverRaiseSome(es, st, w);
      case _ =>
    }
  }

  lemma {:induction false} NeverRaiseAll(es: seq<Expr>, st: State, w: World)
    requires Quietly(w)
    ensures !EvaluateAll(es, st, w).RaisesAll?
    ensures (forall n :: !w.step(n).exits) ==> EvaluateAll(es, st, w).Vals?
    decreases es, 0
  {
    if es != [] {
      NeverRaises(es[0], st, w);
      NeverRaiseAll(es[1..], Evaluate(es[0], st, w).st, w);
    }
  }

  lemma {:induction false} NeverRaiseSome(es: seq<Expr>, st: State, w: World)
    requires Quietly(w)
    ensures !EvaluateSome(es, st, w).RaisesAll?
    ensures (forall n :: !w.step(n).exits) ==> EvaluateSome(es, st, w).Vals?
    decreases es, 0
  {
    hide Evaluate;
    if es != [] {
      NeverRaises(es[0], Later(st), w);
      NeverRaiseSome(es[1..], if Now(st, w).truth then Later(st) else Evaluate(es[0], Later(st), w).st, w);
    }
  }

  // ---------------------------------------------------------------- the hook fails and is recorded

  function HookTerms(): Terms { Terms({"subprocess", "str"}, {RUN, STR}) }

  lemma HookPeaceful(st: State, ends: bool, pries: bool, callees: set<Expr>)
    requires FAILURES in st.vars && "subprocess" !in st.vars && "str" !in st.vars
    ensures Peaceful(st, Steady(ends, pries, callees), HookTerms())
  {
    assert Root(RUN) == Some("subprocess") && Root(STR) == Some("str");
  }

  lemma HookEvaluates(st: State, w: World, t: Terms)
    requires Guarded(st) && Peaceful(st, w, t) && Quietly(w) && Apart(t) && RUN in t.callees && STR in t.callees
    requires forall n :: w.step(n).result == Process(1)
    ensures var r := Evaluate(HOOK_CALL.value, st, w); r.Val? && r.v == Process(1)
  {
    hide Evaluate, Guarded, Peaceful, Quietly, Safe, Listed;
    HookListed(t.callees);
    PartsListed(HOOK_CALL, t);
    CallSound(t);
    PartsSafe(HOOK_CALL, t);
    EvaluateSafe(HOOK_CALL.value, st, w, t);
    NeverRaises(HOOK_CALL.value, st, w);
    HookValue(st, w, t);
  }

  /** The hook completes and reports failure. */
  lemma HookReports(st: State, ends: bool, pries: bool, callees: set<Expr>, fuel: nat)
    requires Owned(st) && "subprocess" !in st.vars && "str" !in st.vars
    ensures var r := Execute(HOOK_CALL, st, Steady(ends, pries, callees), fuel);
            r.out.Normal? && Failed(r.st) && Owned(r.st)
  {
    hide Evaluate, Peaceful, Sound;
    var w, t := Steady(ends, pries, callees), HookTerms();
    HookPeaceful(st, ends, pries, callees);
    HookEvaluates(st, w, t);
    CallSound(t);
    HookListed(t.callees);
    ExecuteSafe(HOOK_CALL, st, w, fuel, t);
    var r := Evaluate(HOOK_CALL.value, st, w);
    assert HOOK_CALL.targets == [Name("development_result")] && HOOK_CALL.targets[1..] == [];
    assert StoreEach(HOOK_CALL.targets, r.v, r.st, w) == Run(Normal, Bind("development_result", r.v, r.st));
  }

  lemma HookValue(st: State, w: World, t: Terms)
    requires Peaceful(st, w, t) && RUN in t.callees && forall n :: w.step(n).result == Process(1)
    ensures var r := Evaluate(HOOK_CALL.value, st, w); r.Val? ==> r.v == Process(1)
  {
    hide EvaluateAll, Peaceful, TameCall;
    ListedIsTame(RUN, st, w, t);
    assert HOOK_CALL.value.func == RUN && !AppendsTo(RUN, st);
  }

  /** And the failure is recorded. */
  lemma HookRecorded(st: State, ends: bool, pries: bool, callees: set<Expr>, fuel: nat)
    requires Owned(st) && Failed(st)
    ensures var r := Execute(HOOK[1], st, Steady(ends, pries, callees), fuel); r.out.Normal? && Owned(r.st)
  {
    hide Execute, Benign;
    var w, none := Steady(ends, pries, callees), Terms({}, {});
    assert StripsTame(w) && Quietly(w) && Peaceful(st, w, none);
    HookRecords(st, w, fuel, none);
    RecordParts(st, w, fuel);
    var d := Execute(HOOK_DETAILS, Later(st), w, fuel);
    DetailsDone(Later(st), w, fuel);
    DoneAppend(d.st, w, fuel);
  }

  lemma DetailsDone(st: State, w: World, fuel: nat)
    requires Guarded(st) && Failed(st) && StripsTame(w) && Quietly(w)
    ensures Execute(HOOK_DETAILS, st, w, fuel).out.Normal?
  {
    hide Evaluate, Quietly;
    DetailsEnd(st, w, fuel, Terms({}, {}));
    NeverRaises(HOOK_DETAILS.value, st, w);
    var r := Evaluate(HOOK_DETAILS.value, st, w);
    assert HOOK_DETAILS.targets == [Name("details")] && HOOK_DETAILS.targets[1..] == [];
    if r.Val? { assert StoreEach([], r.v, Bind("details", r.v, r.st), w) == Run(Normal, Bind("details", r.v, r.st)); }
  }

  lemma DoneAppend(st: State, w: World, fuel: nat)
    requires Quietly(w)
    ensures !Execute(HOOK_APPEND, st, w, fuel).out.Raised?
    ensures var out := Execute(HOOK_APPEND, st, w, fuel).out; out.Normal? || out.Raised? || out.Exited?
  {
    hide Evaluate, Quietly;
    NeverRaises(HOOK_APPEND.expr, st, w);
  }

  /** Every such program runs its hook, records the failure, and goes on with the rest. */
  lemma ProgramRuns(rest: seq<Stmt>, ends: bool, pries: bool, callees: set<Expr>, fuel: nat) returns (st: State)
    requires ConnectedAt(Program(rest), 1) && Program(rest)[..1] == [FRESH]
    requires Program(rest)[3..|Program(rest)| - 3] == rest
    ensures var w := Steady(ends, pries, callees);
            && HookFails(Program(rest), 1, START, w, fuel) && Owned(st)
            && ExecuteBlock(Program(rest), START, w, fuel) == ExecuteBlock(rest + EPILOGUE, st, w, fuel)
  {
    hide ExecuteBlock, Execute, ConnectedAt;
    var w := Steady(ends, pries, callees);
    RunInParts(Program(rest), 1, START, w, fuel);
    BlockOfOne(FRESH, START, w, fuel);
    var made := Execute(FRESH, START, w, fuel);
    Made(w, fuel);
    HookReports(made.st, ends, pries, callees, fuel);
    var called := Execute(HOOK_CALL, made.st, w, fuel);
    HookRecorded(called.st, ends, pries, callees, fuel);
    st := Execute(HOOK[1], called.st, w, fuel).st;
  }

  lemma Made(w: World, fuel: nat)
    ensures Execute(FRESH, START, w, fuel) == Run(Normal, State(map[FAILURES := TheList], 0, false, 0))
  {
    assert FreshList(FRESH);
  }

  // ---------------------------------------------------------------- a call that is not listed

  predicate AllDefs(ss: seq<Stmt>) { forall i :: 0 <= i < |ss| ==> ss[i].Def? }

  /** No other variable is the list. */
  ghost predicate OneName(st: State) { forall x :: x in st.vars && st.vars[x].TheList? ==> x == FAILURES }

  lemma {:induction false} DefsRun(defs: seq<Stmt>, st: State, w: World, fuel: nat)
    requires AllDefs(defs) && OneName(st)
    ensures var r := ExecuteBlock(defs, st, w, fuel); r.out.Normal? && OneName(r.st)
    decreases |defs|
  {
    hide MentionsBlock;
    if defs != [] { DefsRun(defs[1..], Execute(defs[0], st, w, fuel).st, w, fuel); }
  }

  lemma NotAppending(f: Expr, st: State)
    requires OneName(st) && !Mentions(f)
    ensures !AppendsTo(f, st)
  {
    assert f.Attribute? && f.value.Name? ==> f == Attribute(Name(f.value.id), f.attr);
  }

  /** The call ends the process, or evaluating its parts does. */
  lemma CallEnds(f: Expr, args: seq<Expr>, st: State, callees: set<Expr>)
    requires OneName(st) && !Mentions(f) && f !in callees + HookCallees()
    ensures Evaluate(Call(f, args, []), st, Steady(true, false, callees)).Exits?
  {
    hide HookCallees;
    var w := Steady(true, false, callees);
    NotAppending(f, st);
    NeverRaises(f, st, w);
    var rf := Evaluate(f, st, w);
    if rf.Val? { NeverRaiseAll(args, rf.st, w); }
  }

  lemma CallAccepted(defs: seq<Stmt>, f: Expr, args: seq<Expr>)
    requires AllDefs(defs) && !BlockClobbers(defs) && Inert(Call(f, args, []), Terms({}, {}))
    ensures var rest := defs + [Do(Call(f, args, []))]; !BlockHasExit(rest) && !BlockClobbers(rest)
    ensures !Mentions(f)
  {
    hide Clobbers, Mentions, ClobberIn, ExitIn;
    var last := Do(Call(f, args, []));
    var rest := defs + [last];
    InertDo(last.expr, Terms({}, {}));
    assert forall i :: 0 <= i < |defs| ==> rest[i] == defs[i] && !HasExit(defs[i]);
    assert rest[|defs|] == last;
    CalleeInert(f, args);
  }

  lemma CalleeInert(f: Expr, args: seq<Expr>)
    requires !Mentions(Call(f, args, []))
    ensures !Mentions(f)
  {
  }

  /**
   For every list of trusted callees and every call of anything else that does not touch the list:
   the analysis accepts a program that makes it after the hook, behind any local definitions, and a
   world that justifies the trust ends that program before the failure is reported.
   */
  lemma UnlistedCallEndsProcess(defs: seq<Stmt>, f: Expr, args: seq<Expr>, callees: set<Expr>, fuel: nat)
    requires AllDefs(defs) && !BlockClobbers(defs)
    requires Inert(Call(f, args, []), Terms({}, {})) && f !in callees + HookCallees()
    ensures var body := Program(defs + [Do(Call(f, args, []))]);
            && ConnectedAt(body, 1)
            && HookFails(body, 1, START, Steady(true, false, callees), fuel)
            && ExecuteBlock(body, START, Steady(true, false, callees), fuel).out.Exited?
  {
    hide ExecuteBlock, Execute, ConnectedAt, HookFails, Program, HookCallees, Inert;
    var w, last := Steady(true, false, callees), Do(Call(f, args, []));
    var rest := defs + [last];
    CallAccepted(defs, f, args);
    ProgramAccepted(rest);
    var st := ProgramRuns(rest, true, false, callees, fuel);
    ExecuteConcat(rest, EPILOGUE, st, w, fuel);
    ExecuteConcat(defs, [last], st, w, fuel);
    DefsRun(defs, st, w, fuel);
    var st1 := ExecuteBlock(defs, st, w, fuel).st;
    BlockOfOne(last, st1, w, fuel);
    CallEnds(f, args, st1, callees);
    DoExits(last, st1, w, fuel);
  }

  lemma DoExits(s: Stmt, st: State, w: World, fuel: nat)
    requires s.Do?
    ensures Execute(s, st, w, fuel).out.Exited? <==> Evaluate(s.expr, st, w).Exits?
  {
    hide Evaluate;
  }

  // ---------------------------------------------------------------- three such programs

  const OS_EXIT := Attribute(Name("os"), "_exit")

  /** `os._exit(0)` after the hook is accepted, and the process ends without a report. */
  lemma OsExitLosesFailure(fuel: nat)
    ensures var body := Program([Do(Call(OS_EXIT, [Literal(0)], []))]);
            && ConnectedAt(body, 1)
            && HookFails(body, 1, START, Steady(true, false, {}), fuel)
            && ExecuteBlock(body, START, Steady(true, false, {}), fuel).out.Exited?
  {
    hide ExecuteBlock, ConnectedAt, HookFails, Program, Inert;
    var none := Terms({}, {});
    InertName("os", none);
    InertAttribute(Name("os"), "_exit", none);
    InertLiteral(0);
    InertCall(OS_EXIT, [Literal(0)], [], none);
    assert OS_EXIT !in {} + HookCallees();
    UnlistedCallEndsProcess([], OS_EXIT, [Literal(0)], {}, fuel);
    assert [] + [Do(Call(OS_EXIT, [Literal(0)], []))] == [Do(Call(OS_EXIT, [Literal(0)], []))];
  }

  lemma InertLiteral(n: int)
    ensures Inert(Literal(n), Terms({}, {}))
  {
  }

  const BAIL := Name("bail")

  /** `bail()` after any definition of `bail`, whatever its body does. */
  lemma LocalCallLosesFailure(bail: seq<Stmt>, fuel: nat)
    requires !BlockClobbers(bail)
    ensures var body := Program([Def("bail", bail), Do(Call(BAIL, [], []))]);
            && ConnectedAt(body, 1)
            && HookFails(body, 1, START, Steady(true, false, {}), fuel)
            && ExecuteBlock(body, START, Steady(true, false, {}), fuel).out.Exited?
  {
    hide ExecuteBlock, ConnectedAt, HookFails, Program, Inert, BlockClobbers;
    var none, def := Terms({}, {}), Def("bail", bail);
    InertName("bail", none);
    InertCall(BAIL, [], [], none);
    DefAccepted(bail);
    assert BAIL !in {} + HookCallees();
    UnlistedCallEndsProcess([def], BAIL, [], {}, fuel);
    assert [def] + [Do(Call(BAIL, [], []))] == [def, Do(Call(BAIL, [], []))];
  }

  lemma DefAccepted(bail: seq<Stmt>)
    requires !BlockClobbers(bail)
    ensures !BlockClobbers([Def("bail", bail)])
  {
  }

  const SYSTEM_EXIT := Call(Name("SystemExit"), [Literal(0)], [])

  const SYS_EXIT := Call(Attribute(Name("sys"), "exit"), [Literal(0)], [])

  /** `def bail(): raise SystemExit(0)`, then `bail()`. */
  lemma RaisedExitLosesFailure(fuel: nat)
    ensures var body := Program([Def("bail", [Raise(Some(SYSTEM_EXIT))]), Do(Call(BAIL, [], []))]);
            && ConnectedAt(body, 1)
            && HookFails(body, 1, START, Steady(true, false, {}), fuel)
            && ExecuteBlock(body, START, Steady(true, false, {}), fuel).out.Exited?
  {
    hide ExecuteBlock, ConnectedAt, HookFails, Program;
    var s := Raise(Some(SYSTEM_EXIT));
    assert Own(s) == [SYSTEM_EXIT];
    assert !ClobberIn(Literal(0)) && !Mentions(Literal(0)) && !ClobberIn(Name("SystemExit"));
    assert !Clobbers(s);
    LocalCallLosesFailure([s], fuel);
  }

  /** `def bail(): sys.exit(0)`, then `bail()`. */
  lemma LocalFunctionEndsProcess(fuel: nat)
    ensures var body := Program([Def("bail", [Do(SYS_EXIT)]), Do(Call(BAIL, [], []))]);
            && ConnectedAt(body, 1)
            && HookFails(body, 1, START, Steady(true, false, {}), fuel)
            && ExecuteBlock(body, START, Steady(true, false, {}), fuel).out.Exited?
  {
    hide ExecuteBlock, ConnectedAt, HookFails, Program;
    var s := Do(SYS_EXIT);
    assert Own(s) == [SYS_EXIT];
    assert !ClobberIn(Literal(0)) && !Mentions(Literal(0)) && !ClobberIn(Attribute(Name("sys"), "exit"));
    assert !Clobbers(s);
    LocalCallLosesFailure([s], fuel);
  }

  // ---------------------------------------------------------------- listing is the exact condition

  /**
   For a program whose only call after the hook is `f(args)` with parts that call nothing unlisted:
   it survives in every world that justifies the trust exactly when `f` is listed.
   */
  lemma ListedExactly(f: Expr, args: seq<Expr>, t: Terms)
    requires Fair(t) && Apart(t) && PRINT in t.callees && Inert(Call(f, args, []), t)
    requires Listed(f, t.callees) && AllListed(args, t.callees) && f !in {RUN, STR, Strip("stderr"), Strip("stdout")}
    requires SparesBlock(Program([Do(Call(f, args, []))]), t.names)
    ensures var body := Program([Do(Call(f, args, []))]);
            f in t.callees <==> forall w, fuel :: Trusted(w, t) && !w.pries ==> Survives(body, 1, START, w, fuel)
  {
    hide Inert, Survives, Trusted;
    var last := Do(Call(f, args, []));
    var body := Program([last]);
    if f in t.callees {
      forall w, fuel | Trusted(w, t) && !w.pries ensures Survives(body, 1, START, w, fuel) {
        ListedSurvives(f, args, w, fuel, t);
      }
    } else {
      UnlistedDies(f, args, t);
    }
  }

  lemma ListedSurvives(f: Expr, args: seq<Expr>, w: World, fuel: nat, t: Terms)
    requires Apart(t) && Inert(Call(f, args, []), t) && Trusted(w, t) && !w.pries
    requires f in t.callees && Listed(f, t.callees) && AllListed(args, t.callees)
    requires SparesBlock(Program([Do(Call(f, args, []))]), t.names)
    ensures Survives(Program([Do(Call(f, args, []))]), 1, START, w, fuel)
  {
    hide ExecuteBlock, ConnectedAt, Survives, Trusted, SparesBlock, Inert, Listed;
    var last := Do(Call(f, args, []));
    var body := Program([last]);
    InertNothing(last.expr, t);
    CallAccepted([], f, args);
    assert [] + [last] == [last];
    ProgramAccepted([last]);
    OneCallBehaved(f, args, t);
    CheckerSurvives(body, 1, 0, w, fuel, t);
  }

  lemma InertNothing(e: Expr, t: Terms)
    requires Inert(e, t)
    ensures Inert(e, Terms({}, {}))
  {
    SparesNothingIn(e);
  }

  lemma OneCallBehaved(f: Expr, args: seq<Expr>, t: Terms)
    requires Inert(Call(f, args, []), t)
    requires ConnectedAt(Program([Do(Call(f, args, []))]), 1)
    ensures Wellbehaved(Program([Do(Call(f, args, []))]), 1, 0)
    ensures f in t.callees && Listed(f, t.callees) && AllListed(args, t.callees) ==>
              BlockListed([Do(Call(f, args, []))], t.callees)
  {
    hide Clobbers, Listed, Plain;
    var last := Do(Call(f, args, []));
    var body := Program([last]);
    InertDo(last.expr, t);
    assert body[3..|body| - 3] == [last] && body[..0] == [] && body[1..1] == [] && body[0] == FRESH;
    assert Disciplined(last);
    if f in t.callees && Listed(f, t.callees) && AllListed(args, t.callees) {
      CallListed(f, args, [], t.callees);
      assert Own(last) == [last.expr];
    }
  }

  lemma UnlistedDies(f: Expr, args: seq<Expr>, t: Terms)
    requires Fair(t) && PRINT in t.callees && Inert(Call(f, args, []), t) && f !in t.callees
    requires f !in {RUN, STR, Strip("stderr"), Strip("stdout")}
    ensures var w := Steady(true, false, t.callees);
            Trusted(w, t) && !w.pries && !Survives(Program([Do(Call(f, args, []))]), 1, START, w, 0)
  {
    hide ExecuteBlock, ConnectedAt, HookFails, Program, Inert;
    var last := Do(Call(f, args, []));
    InertNothing(last.expr, t);
    UnlistedCallEndsProcess([], f, args, t.callees, 0);
    assert [] + [last] == [last];
  }
}
