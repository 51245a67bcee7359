/**
 The list discipline is exact for a single expression after the hook: a program with it keeps a failing
 hook in every world that does not pry precisely when no step of the expression hands the list on.
 And no discipline on the list helps against code that pries.
 */
module HookDiscipline {
  import opened Wrappers
  import opened PythonFragment
  import opened HookAnalyser
  import opened HookSoundness
  import opened HookTheorem
  import opened HookBlindSpots

  // ---------------------------------------------------------------- once leaked, always leaked

  ghost predicate Held(st: State) { FAILURES in st.vars && st.vars[FAILURES].TheList? }

  /** The variable still names the list, and a leak is never undone. */
  ghost predicate Stays(st: State, st': State) { Held(st') && (st.leaked ==> st'.leaked) }

  /** Nothing raises, nothing ends the process, every operand counts, and what gets the list empties it. */
  const EMPTIED := Choice(false, false, false, false, Process(1), map[FAILURES := TheList], 0, 2)

  ghost predicate Careless(w: World) { !w.implicit && forall n :: w.step(n) == EMPTIED }

  lemma StepStays(r: Reach, tame: bool, st: State, w: World)
    requires Held(st) && Careless(w)
    ensures Stays(st, Outcome(r, st, w).st) && Stays(st, Next(r, st, w).st) && Stays(st, Picked(r, st, w).st)
    ensures Stays(st, Collected(r, st, w).st) && Stays(st, Invoke(tame, r, st, w).st) && Stays(st, Append(r, st, w).st)
  {
  }

  lemma {:induction false} LeakStays(e: Expr, st: State, w: World)
    requires Held(st) && Careless(w) && !ClobberIn(e)
    ensures Stays(st, Evaluate(e, st, w).st)
    decreases e, 1
  {
    hide Evaluate, ClobberIn, Careless;
    match e {
      case Subscript(_, _) => PairStays(e, st, w);
      case NotEqual(_, _) => PairStays(e, st, w);
      case Call(_, _, _) => CallStays(e, st, w);
      case Display(es) => ContainerStays(e, es, st, w);
      case Format(es) => ContainerStays(e, es, st, w);
      case Boolean(es) => OperatorStays(e, es, st, w);
      case Operation(es) => OperatorStays(e, es, st, w);
      case _ => OneStays(e, st, w);
    }
  }

  lemma {:induction false} OneStays(e: Expr, st: State, w: World)
    requires Held(st) && Careless(w) && !ClobberIn(e)
    requires e.Attribute? || e.Walrus? || e.Name? || e.Literal? || e.Constant? || e.Lambda?
    ensures Stays(st, Evaluate(e, st, w).st)
    decreases e, 0
  {
    hide Outcome, ClobberIn, Careless, Mentions;
    PartsUnclobbered(e);
    if e.Attribute? || e.Walrus? {
      LeakStays(e.value, st, w);
      var r := Evaluate(e.value, st, w);
      if r.Val? { StepStays(ReachOf(r.v), false, r.st, w); }
    }
  }

  lemma {:induction false} PairStays(e: Expr, st: State, w: World)
    requires Held(st) && Careless(w) && !ClobberIn(e) && (e.Subscript? || e.NotEqual?)
    ensures Stays(st, Evaluate(e, st, w).st)
    decreases e, 0
  {
    hide Outcome, Next, ClobberIn, Careless, Lone;
    PartsUnclobbered(e);
    var (a, b) := if e.Subscript? then (e.value, e.index) else (e.left, e.right);
    LeakStays(a, st, w);
    var ra := Evaluate(a, st, w);
    if ra.Val? {
      LeakStays(b, ra.st, w);
      var rb := Evaluate(b, ra.st, w);
      if rb.Val? {
        StepStays(ReachOf(ra.v), false, rb.st, w);
        StepStays(Through, false, rb.st, w);
        StepStays(Handed(Worse(ReachOf(ra.v), ReachOf(rb.v)), [a, b]), false, rb.st, w);
      }
    }
  }

  /** The analysis looks into the parts of an expression. */
  lemma PartsUnclobbered(e: Expr)
    requires !ClobberIn(e)
    ensures e.Attribute? ==> !ClobberIn(e.value)
    ensures e.Subscript? ==> !ClobberIn(e.value) && !ClobberIn(e.index)
    ensures e.Call? ==> !ClobberIn(e.func) && !AnyClobber(e.args) && !AnyMention(e.args)
    ensures e.NotEqual? ==> !ClobberIn(e.left) && !ClobberIn(e.right)
    ensures e.Walrus? ==> !ClobberIn(e.value) && e.target != FAILURES && !Mentions(e.value)
    ensures e.Display? ==> !AnyClobber(e.elts)
    ensures e.Boolean? || e.Format? || e.Operation? ==> !AnyClobber(e.parts)
  {
    hide Mentions;
  }

  lemma {:induction false} CallStays(e: Expr, st: State, w: World)
    requires Held(st) && Careless(w) && !ClobberIn(e) && e.Call?
    ensures Stays(st, Evaluate(e, st, w).st)
    decreases e, 0
  {
    hide Invoke, Append, ClobberIn, Careless, TameCall, Mentions, AppendsTo;
    PartsUnclobbered(e);
    LeakStays(e.func, st, w);
    var rf := if AppendsTo(e.func, st) then Val(Other, st) else Evaluate(e.func, st, w);
    if rf.Val? {
      AllStay(e.args, rf.st, w);
      var ra := EvaluateAll(e.args, rf.st, w);
      if ra.Vals? {
        StepStays(Worse(ReachOf(rf.v), ra.reach), TameCall(e.func, st, w), ra.st, w);
        StepStays(ra.reach, false, ra.st, w);
      }
    }
  }

  lemma {:induction false} ContainerStays(e: Expr, es: seq<Expr>, st: State, w: World)
    requires e == Display(es) || e == Format(es)
    requires Held(st) && Careless(w) && !ClobberIn(e)
    ensures Stays(st, Evaluate(e, st, w).st)
    decreases e, 0
  {
    hide Outcome, Collected, ClobberIn, Careless, EvaluateAll;
    PartsUnclobbered(e);
    AllStay(es, st, w);
    var r := EvaluateAll(es, st, w);
    if r.Vals? { StepStays(if e.Format? && r.reach == Direct then Clean else r.reach, false, r.st, w); }
  }

  lemma {:induction false} OperatorStays(e: Expr, es: seq<Expr>, st: State, w: World)
    requires e == Boolean(es) || e == Operation(es)
    requires Held(st) && Careless(w) && !ClobberIn(e)
    ensures Stays(st, Evaluate(e, st, w).st)
    decreases e, 0
  {
    hide Outcome, Picked, ClobberIn, Careless, EvaluateSome, Lone;
    PartsUnclobbered(e);
    SomeStay(es, st, w);
    var r := EvaluateSome(es, st, w);
    if r.Vals? { StepStays(if e.Boolean? then r.reach else Handed(r.reach, es), false, r.st, w); }
  }

  lemma {:induction false} AllStay(es: seq<Expr>, st: State, w: World)
    requires Held(st) && Careless(w) && !AnyClobber(es)
    ensures Stays(st, EvaluateAll(es, st, w).st)
    decreases es, 0
  {
    hide Evaluate, ClobberIn, Careless;
    if es != [] {
      LeakStays(es[0], st, w);
      var r := Evaluate(es[0], st, w);
      assert forall i :: 0 <= i < |es[1..]| ==> es[1..][i] == es[i + 1];
      if r.Val? { AllStay(es[1..], r.st, w); }
    }
  }

  lemma {:induction false} SomeStay(es: seq<Expr>, st: State, w: World)
    requires Held(st) && Careless(w) && !AnyClobber(es)
    ensures Stays(st, EvaluateSome(es, st, w).st)
    decreases es, 0
  {
    hide Evaluate, ClobberIn, Careless;
    if es != [] {
      var st1 := Later(st);
      LeakStays(es[0], st1, w);
      var r := Evaluate(es[0], st1, w);
      assert forall i :: 0 <= i < |es[1..]| ==> es[1..][i] == es[i + 1];
      if Now(st, w).truth { SomeStay(es[1..], st1, w); } else if r.Val? { SomeStay(es[1..], r.st, w); }
    }
  }

  // ---------------------------------------------------------------- what a plain expression yields

  const NONE := Terms({}, {})

  /** Accepted by the analysis. */
  predicate Accepted(e: Expr) { !ClobberIn(e) && !ExitIn(e) }

  predicate AllAccepted(es: seq<Expr>) { forall i :: 0 <= i < |es| ==> Accepted(es[i]) }

  ghost predicate Tidy(w: World) { Careless(w) && !w.pries }

  /** A plain expression has a value and leaves the list alone. */
  lemma PlainRuns(e: Expr, st: State, w: World)
    requires Owned(st) && Tidy(w) && Plain(e) && Accepted(e)
    ensures Evaluate(e, st, w).Val? && Owned(Evaluate(e, st, w).st)
  {
    hide Evaluate, Plain, ClobberIn, ExitIn;
    SparesNothingIn(e);
    EvaluateSafe(e, st, w, NONE);
    NeverRaises(e, st, w);
  }

  lemma AcceptedParts(e: Expr)
    requires Accepted(e)
    ensures e.Attribute? ==> Accepted(e.value)
    ensures e.Subscript? ==> Accepted(e.value) && Accepted(e.index)
    ensures e.Call? ==> Accepted(e.func) && AllAccepted(e.args) && !AnyMention(e.args)
    ensures e.NotEqual? ==> Accepted(e.left) && Accepted(e.right)
    ensures e.Walrus? ==> Accepted(e.value) && !Mentions(e.value)
    ensures e.Display? ==> AllAccepted(e.elts)
    ensures e.Boolean? || e.Format? || e.Operation? ==> AllAccepted(e.parts)
  {
    hide Mentions;
  }

  /** It yields exactly what the text says. */
  lemma {:induction false} CarriesExact(e: Expr, st: State, w: World)
    requires Owned(st) && Tidy(w) && Plain(e) && Accepted(e)
    ensures Evaluate(e, st, w).Val? && ReachOf(Evaluate(e, st, w).v) == Carries(e)
    decreases e, 2
  {
    hide Evaluate, Plain, Accepted, Carries;
    PlainRuns(e, st, w);
    match e {
      case Subscript(_, _) => PairExact(e, st, w);
      case NotEqual(_, _) => PairExact(e, st, w);
      case Call(_, _, _) => CallExact(e, st, w);
      case Display(_) => PartsExact(e, st, w);
      case Format(_) => PartsExact(e, st, w);
      case Boolean(_) => PartsExact(e, st, w);
      case Operation(_) => PartsExact(e, st, w);
      case _ => OneExact(e, st, w);
    }
  }

  lemma {:induction false} OneExact(e: Expr, st: State, w: World)
    requires Owned(st) && Tidy(w) && Plain(e) && Accepted(e) && Evaluate(e, st, w).Val?
    requires e.Attribute? || e.Walrus? || e.Name? || e.Literal? || e.Constant? || e.Lambda?
    ensures ReachOf(Evaluate(e, st, w).v) == Carries(e)
    decreases e, 1
  {
    hide Accepted;
    AcceptedParts(e);
    PlainParts(e);
    if e.Attribute? || e.Walrus? { CarriesExact(e.value, st, w); }
  }

  lemma {:induction false} PairExact(e: Expr, st: State, w: World)
    requires Owned(st) && Tidy(w) && Plain(e) && Accepted(e) && (e.Subscript? || e.NotEqual?) && Evaluate(e, st, w).Val?
    ensures ReachOf(Evaluate(e, st, w).v) == Carries(e)
    decreases e, 1
  {
    hide Plain, Accepted, Lone;
    AcceptedParts(e);
    PlainParts(e);
    var (a, b) := if e.Subscript? then (e.value, e.index) else (e.left, e.right);
    CarriesExact(a, st, w);
    PlainRuns(a, st, w);
    CarriesExact(b, Evaluate(a, st, w).st, w);
    PlainRuns(b, Evaluate(a, st, w).st, w);
  }

  lemma {:induction false} PartsExact(e: Expr, st: State, w: World)
    requires Owned(st) && Tidy(w) && Plain(e) && Accepted(e) && Evaluate(e, st, w).Val?
    requires e.Display? || e.Format? || e.Boolean? || e.Operation?
    ensures ReachOf(Evaluate(e, st, w).v) == Carries(e)
    decreases e, 1
  {
    hide Plain, Accepted, Lone, Worst, EvaluateAll, EvaluateSome;
    AcceptedParts(e);
    PlainParts(e);
    if e.Display? {
      AllExact(e.elts, st, w);
    } else if e.Format? {
      AllExact(e.parts, st, w);
    } else {
      SomeExact(e.parts, st, w);
    }
  }

  lemma PlainParts(e: Expr)
    requires Plain(e)
    ensures e.Attribute? ==> Plain(e.value) && Carries(e.value) != Through
    ensures e.Subscript? ==>
              Plain(e.value) && Plain(e.index) && Carries(e.value) != Through && Carries(e.index) == Clean
    ensures e.Call? ==> Plain(e.func) && AllPlain(e.args)
    ensures e.NotEqual? ==> Plain(e.left) && Plain(e.right)
    ensures e.Walrus? ==> Plain(e.value)
    ensures e.Display? ==> AllPlain(e.elts)
    ensures e.Boolean? ==> AllPlain(e.parts)
    ensures e.Format? ==> AllPlain(e.parts) && Worst(e.parts) != Through
    ensures e.Operation? ==> AllPlain(e.parts) && Handed(Worst(e.parts), e.parts) != Through
  {
    hide Worst, Carries, Lone;
  }

  predicate AllPlain(es: seq<Expr>) { forall i :: 0 <= i < |es| ==> Plain(es[i]) }

  lemma CallExact(e: Expr, st: State, w: World)
    requires Owned(st) && Tidy(w) && Plain(e) && Accepted(e) && e.Call? && Evaluate(e, st, w).Val?
    ensures ReachOf(Evaluate(e, st, w).v) == Carries(e)
  {
    hide Evaluate, Plain, ClobberIn, ExitIn;
    SparesNothingIn(e);
    EvaluateSafe(e, st, w, NONE);
  }

  lemma {:induction false} AllExact(es: seq<Expr>, st: State, w: World)
    requires Owned(st) && Tidy(w) && AllPlain(es) && AllAccepted(es)
    ensures var r := EvaluateAll(es, st, w); r.Vals? && r.reach == Worst(es) && Owned(r.st)
    decreases es, 0
  {
    hide Evaluate, Plain, Accepted, Carries, Guarded, Tidy;
    if es != [] {
      PlainRuns(es[0], st, w);
      CarriesExact(es[0], st, w);
      assert forall i :: 0 <= i < |es[1..]| ==> es[1..][i] == es[i + 1];
      AllExact(es[1..], Evaluate(es[0], st, w).st, w);
    }
  }

  lemma {:induction false} SomeExact(es: seq<Expr>, st: State, w: World)
    requires Owned(st) && Tidy(w) && AllPlain(es) && AllAccepted(es)
    ensures var r := EvaluateSome(es, st, w); r.Vals? && r.reach == Worst(es) && Owned(r.st)
    decreases es, 0
  {
    hide Evaluate, Plain, Accepted, Carries;
    if es != [] {
      var st1 := Later(st);
      assert Owned(st1);
      PlainRuns(es[0], st1, w);
      CarriesExact(es[0], st1, w);
      assert forall i :: 0 <= i < |es[1..]| ==> es[1..][i] == es[i + 1];
      SomeExact(es[1..], Evaluate(es[0], st1, w).st, w);
    }
  }

  // ---------------------------------------------------------------- what any other expression does

  /** An accepted expression that is not plain lets the list out. */
  lemma {:induction false} Leaks(e: Expr, st: State, w: World)
    requires Owned(st) && Tidy(w) && Accepted(e) && !Plain(e)
    ensures Evaluate(e, st, w).st.leaked
    decreases e, 2
  {
    hide Evaluate, Plain, Accepted, Guarded, Tidy;
    match e {
      case Subscript(_, _) => PairLeaks(e, st, w);
      case NotEqual(_, _) => PairLeaks(e, st, w);
      case Call(_, _, _) => CallLeaks(e, st, w);
      case Display(es) => ContainerLeaks(e, es, st, w);
      case Format(es) => ContainerLeaks(e, es, st, w);
      case Boolean(es) => OperatorLeaks(e, es, st, w);
      case Operation(es) => OperatorLeaks(e, es, st, w);
      case _ => OneLeaks(e, st, w);
    }
  }

  lemma {:induction false} OneLeaks(e: Expr, st: State, w: World)
    requires Owned(st) && Tidy(w) && Accepted(e) && !Plain(e)
    requires e.Attribute? || e.Walrus? || e.Name? || e.Literal? || e.Constant? || e.Lambda?
    ensures Evaluate(e, st, w).st.leaked
    decreases e, 1
  {
    hide Accepted;
    AcceptedParts(e);
    if e.Walrus? { UnmentionedClean(e.value); }
    if e.Attribute? || e.Walrus? {
      if Plain(e.value) { CarriesExact(e.value, st, w); } else { Leaks(e.value, st, w); }
    }
  }

  lemma {:induction false} PairLeaks(e: Expr, st: State, w: World)
    requires Owned(st) && Tidy(w) && Accepted(e) && !Plain(e) && (e.Subscript? || e.NotEqual?)
    ensures Evaluate(e, st, w).st.leaked
    decreases e, 1
  {
    hide ClobberIn, ExitIn, Lone;
    AcceptedParts(e);
    var (a, b) := if e.Subscript? then (e.value, e.index) else (e.left, e.right);
    var ra := Evaluate(a, st, w);
    if Plain(a) {
      CarriesExact(a, st, w);
      PlainRuns(a, st, w);
      if Plain(b) { CarriesExact(b, ra.st, w); } else { Leaks(b, ra.st, w); }
    } else {
      Leaks(a, st, w);
      LeakStays(a, st, w);
      if ra.Val? { LeakStays(b, ra.st, w); }
    }
  }

  lemma {:induction false} CallLeaks(e: Expr, st: State, w: World)
    requires Owned(st) && Tidy(w) && Accepted(e) && !Plain(e) && e.Call?
    ensures Evaluate(e, st, w).st.leaked
    decreases e, 1
  {
    hide ClobberIn, ExitIn, Mentions, EvaluateAll, Worst;
    AcceptedParts(e);
    var f, args := e.func, e.args;
    UnmentionedAll(args);
    if f == APPEND {
      AllLeak(args, st, w);
    } else if Plain(f) {
      CarriesExact(f, st, w);
      PlainRuns(f, st, w);
      assert !AppendsTo(f, st);
      var rf := Evaluate(f, st, w);
      if AllPlain(args) {
        AllExact(args, rf.st, w);
      } else {
        AllLeak(args, rf.st, w);
      }
    } else {
      Leaks(f, st, w);
      LeakStays(f, st, w);
      var rf := Evaluate(f, st, w);
      if rf.Val? { AllStay(args, rf.st, w); }
    }
  }

  lemma {:induction false} ContainerLeaks(e: Expr, es: seq<Expr>, st: State, w: World)
    requires Owned(st) && Tidy(w) && Accepted(e) && !Plain(e) && (e == Display(es) || e == Format(es))
    ensures Evaluate(e, st, w).st.leaked
    decreases e, 1
  {
    hide ClobberIn, ExitIn, EvaluateAll, Worst;
    AcceptedParts(e);
    if AllPlain(es) {
      AllExact(es, st, w);
    } else {
      AllLeak(es, st, w);
    }
  }

  lemma {:induction false} OperatorLeaks(e: Expr, es: seq<Expr>, st: State, w: World)
    requires Owned(st) && Tidy(w) && Accepted(e) && !Plain(e) && (e == Boolean(es) || e == Operation(es))
    ensures Evaluate(e, st, w).st.leaked
    decreases e, 1
  {
    hide ClobberIn, ExitIn, EvaluateSome, Worst, Lone;
    AcceptedParts(e);
    if AllPlain(es) {
      SomeExact(es, st, w);
    } else {
      SomeLeak(es, st, w);
    }
  }

  lemma PlainTail(es: seq<Expr>)
    requires es != [] && Plain(es[0]) && !AllPlain(es)
    ensures !AllPlain(es[1..])
  {
    hide Plain;
    var i :| 0 <= i < |es| && !Plain(es[i]);
    assert es[1..][i - 1] == es[i];
  }

  lemma {:induction false} AllLeak(es: seq<Expr>, st: State, w: World)
    requires Owned(st) && Tidy(w) && AllAccepted(es) && !AllPlain(es)
    ensures EvaluateAll(es, st, w).st.leaked
    decreases es, 0
  {
    hide Evaluate, Plain, ClobberIn, ExitIn;
    var rest := es[1..];
    assert forall i :: 0 <= i < |rest| ==> rest[i] == es[i + 1];
    var r := Evaluate(es[0], st, w);
    if Plain(es[0]) {
      PlainRuns(es[0], st, w);
      PlainTail(es);
      AllLeak(rest, r.st, w);
    } else {
      Leaks(es[0], st, w);
      LeakStays(es[0], st, w);
      if r.Val? { AllStay(rest, r.st, w); }
    }
  }

  lemma {:induction false} SomeLeak(es: seq<Expr>, st: State, w: World)
    requires Owned(st) && Tidy(w) && AllAccepted(es) && !AllPlain(es)
    ensures EvaluateSome(es, st, w).st.leaked
    decreases es, 0
  {
    hide Evaluate, Plain, ClobberIn, ExitIn;
    var rest, st1 := es[1..], Later(st);
    assert Owned(st1);
    assert forall i :: 0 <= i < |rest| ==> rest[i] == es[i + 1];
    var r := Evaluate(es[0], st1, w);
    if Plain(es[0]) {
      PlainRuns(es[0], st1, w);
      PlainTail(es);
      SomeLeak(rest, r.st, w);
    } else {
      Leaks(es[0], st1, w);
      LeakStays(es[0], st1, w);
      if r.Val? { SomeStay(rest, r.st, w); }
    }
  }

  // ---------------------------------------------------------------- whole programs

  /** Once the list is out, the program can return 0. */
  lemma LeakedEpilogue(st: State, w: World, fuel: nat)
    requires Held(st) && st.leaked && Careless(w)
    ensures ExecuteBlock(EPILOGUE, st, w, fuel).out == Returned(Number(0))
  {
    hide Execute, Careless;
    var st1 := Later(st);
    LeakedTest(st, w, fuel);
    LastReturns(st1, w, fuel);
    assert EPILOGUE[1..] == [PASSED, Return(Some(Literal(0)))];
  }

  lemma LeakedTest(st: State, w: World, fuel: nat)
    requires Held(st) && st.leaked && Careless(w)
    ensures Execute(EPILOGUE[0], st, w, fuel) == Run(Normal, Later(st))
  {
    assert Evaluate(Name(FAILURES), st, w) == Val(TheList, st);
    var st1 := Later(st);
    assert ExecuteBlock([], st1, w, fuel) == Run(Normal, st1);
  }

  lemma LastReturns(st: State, w: World, fuel: nat)
    requires Careless(w)
    ensures ExecuteBlock([PASSED, Return(Some(Literal(0)))], st, w, fuel).out == Returned(Number(0))
  {
    hide ExecuteBlock, Evaluate;
    NeverRaises(PASSED.expr, st, w);
    BlockOfTwo(PASSED, Return(Some(Literal(0))), st, w, fuel);
    ZeroEvaluates(Evaluate(PASSED.expr, st, w).st, w);
  }

  lemma ZeroEvaluates(st: State, w: World)
    ensures Evaluate(Literal(0), st, w) == Val(Number(0), st)
  {
  }

  /** A whole program that the analysis accepts, whose hook fails, and that returns 0. */
  ghost predicate LosesFailure(e: Expr, w: World, fuel: nat) {
    var body := Program([Do(e)]);
    && ConnectedAt(body, 1)
    && HookFails(body, 1, START, w, fuel)
    && ExecuteBlock(body, START, w, fuel).out == Returned(Number(0))
  }

  lemma DoAccepted(e: Expr)
    requires Accepted(e)
    ensures ConnectedAt(Program([Do(e)]), 1)
    ensures Program([Do(e)])[..1] == [FRESH] && Program([Do(e)])[3..|Program([Do(e)])| - 3] == [Do(e)]
    ensures !Clobbers(Do(e)) && !HasExit(Do(e))
  {
    hide ConnectedAt, Program, ClobberIn, ExitIn;
    assert Own(Do(e)) == [e];
    ProgramAccepted([Do(e)]);
  }

  /** What lets the list out loses the failure. */
  lemma LeakLosesFailure(e: Expr, pries: bool, fuel: nat)
    requires Accepted(e)
    requires forall st :: Owned(st) ==> Evaluate(e, st, Steady(false, pries, {})).st.leaked
    ensures LosesFailure(e, Steady(false, pries, {}), fuel)
  {
    hide ExecuteBlock, Evaluate, ConnectedAt, HookFails, Program, Guarded;
    var w := Steady(false, pries, {});
    DoAccepted(e);
    var st := ProgramRuns([Do(e)], false, pries, {}, fuel);
    ExecuteConcat([Do(e)], EPILOGUE, st, w, fuel);
    BlockOfOne(Do(e), st, w, fuel);
    NeverRaises(e, st, w);
    OwnedHeld(st);
    LeakStays(e, st, w);
    LeakedEpilogue(Evaluate(e, st, w).st, w, fuel);
  }

  lemma OwnedHeld(st: State)
    requires Owned(st)
    ensures Held(st)
  {
  }

  /**
   For every expression that the analysis accepts: the program with just this expression after the
   hook fails closed in every world that does not pry exactly when the expression is plain.
   */
  lemma PlainExactly(e: Expr)
    requires Accepted(e)
    ensures Plain(e) <==> forall w: World, fuel :: !w.pries ==> FailsClosed(Program([Do(e)]), 1, START, w, fuel)
    ensures !Plain(e) ==> forall fuel :: LosesFailure(e, Steady(false, false, {}), fuel)
  {
    hide Plain, FailsClosed, LosesFailure, Accepted;
    if Plain(e) {
      forall w: World, fuel: nat | !w.pries ensures FailsClosed(Program([Do(e)]), 1, START, w, fuel) {
        OneBehaved(e);
        CheckerFailsClosed(Program([Do(e)]), 1, 0, w, fuel);
      }
    } else {
      var w := Steady(false, false, {});
      forall fuel ensures LosesFailure(e, w, fuel) {
        forall st | Owned(st) ensures Evaluate(e, st, w).st.leaked { Leaks(e, st, w); }
        LeakLosesFailure(e, false, fuel);
      }
      LostIsOpen(e, w, 0);
    }
  }

  lemma LostIsOpen(e: Expr, w: World, fuel: nat)
    requires LosesFailure(e, w, fuel)
    ensures !FailsClosed(Program([Do(e)]), 1, START, w, fuel)
  {
    hide ExecuteBlock, HookFails, ConnectedAt;
  }

  lemma OneBehaved(e: Expr)
    requires Accepted(e) && Plain(e)
    ensures Wellbehaved(Program([Do(e)]), 1, 0)
  {
    hide ConnectedAt, Clobbers, Plain, Accepted;
    DoAccepted(e);
    var body := Program([Do(e)]);
    assert body[..0] == [] && body[1..1] == [] && body[0] == FRESH;
    assert Disciplined(Do(e));
  }

  // ---------------------------------------------------------------- some expressions that are not plain

  /** `(failures or []).clear()`: a method call on something that is not the plain name. */
  const CLEAR := Call(Attribute(Boolean([Name(FAILURES), Display([])]), "clear"), [], [])

  /** `registry[failures]`: the list as an index. */
  const LOOKUP := Subscript(Name("registry"), Name(FAILURES))

  /** `failures != guard`: the list beside another operand. */
  const COMPARISON := NotEqual(Name(FAILURES), Name("guard"))

  lemma ClearAccepted()
    ensures Accepted(CLEAR) && !Plain(CLEAR)
  {
    var parts := [Name(FAILURES), Display([])];
    ReceiverAccepted(parts);
    assert CLEAR.func == Attribute(Boolean(parts), "clear") && CLEAR.args == [];
    assert Carries(CLEAR.func) == Through;
    assert !ClobberIn(CLEAR.func) && !ExitIn(CLEAR.func);
  }

  lemma ReceiverAccepted(parts: seq<Expr>)
    requires parts == [Name(FAILURES), Display([])]
    ensures Accepted(Boolean(parts)) && Carries(Boolean(parts)) == Direct
  {
    assert parts[1..] == [Display([])] && parts[1..][1..] == [];
    assert Worst(parts[1..]) == Clean && Worst(parts) == Direct;
    assert !ExitIn(parts[0]) && !ExitIn(parts[1]) && !ClobberIn(parts[0]) && !ClobberIn(parts[1]);
  }

  lemma CompoundReceiverLosesFailure(fuel: nat)
    ensures LosesFailure(CLEAR, Steady(false, false, {}), fuel)
  {
    hide LosesFailure, Accepted, Plain, FailsClosed;
    ClearAccepted();
    PlainExactly(CLEAR);
  }

  lemma OperandLosesFailure(fuel: nat)
    ensures LosesFailure(LOOKUP, Steady(false, false, {}), fuel)
    ensures LosesFailure(COMPARISON, Steady(false, false, {}), fuel)
  {
    hide LosesFailure, Accepted, Plain, FailsClosed;
    OperandsAccepted();
    PlainExactly(LOOKUP);
    PlainExactly(COMPARISON);
  }

  lemma OperandsAccepted()
    ensures Accepted(LOOKUP) && !Plain(LOOKUP) && Accepted(COMPARISON) && !Plain(COMPARISON)
  {
    var operands := [Name(FAILURES), Name("guard")];
    assert !Const(operands[0]) && !Const(operands[1]) && !Lone(operands);
  }

  // ---------------------------------------------------------------- reflection

  /**
   Any call that is not of a canonical callee, though it is handed nothing, loses the failure in a world
   that pries, as `exec("failures.clear()")` does.
   */
  lemma PryingCallLosesFailure(f: Expr, args: seq<Expr>, fuel: nat)
    requires Inert(Call(f, args, []), NONE) && f !in HookCallees()
    ensures LosesFailure(Call(f, args, []), Steady(false, true, {}), fuel)
  {
    hide LosesFailure, HookCallees, Inert, Evaluate;
    var e, w := Call(f, args, []), Steady(false, true, {});
    CallAccepted([], f, args);
    InertAccepted(e);
    forall st | Owned(st) ensures Evaluate(e, st, w).st.leaked { PryingLeaks(f, args, st); }
    LeakLosesFailure(e, true, fuel);
  }

  lemma InertAccepted(e: Expr)
    requires Inert(e, NONE)
    ensures Accepted(e)
  {
    hide ClobberIn, ExitIn;
  }

  lemma PryingLeaks(f: Expr, args: seq<Expr>, st: State)
    requires Owned(st) && !Mentions(f) && f !in HookCallees()
    ensures Evaluate(Call(f, args, []), st, Steady(false, true, {})).st.leaked
  {
    hide HookCallees;
    var w := Steady(false, true, {});
    NotAppending(f, st);
    NeverRaises(f, st, w);
    var rf := Evaluate(f, st, w);
    NeverRaiseAll(args, rf.st, w);
  }

  const EXEC := Call(Name("exec"), [Constant("failures.clear()")], [])

  lemma ExecLosesFailure(fuel: nat)
    ensures LosesFailure(EXEC, Steady(false, true, {}), fuel)
  {
    hide LosesFailure, Inert;
    InertName("exec", NONE);
    InertConstant("failures.clear()", NONE);
    InertCall(Name("exec"), [Constant("failures.clear()")], [], NONE);
    assert Name("exec") !in HookCallees();
    PryingCallLosesFailure(Name("exec"), [Constant("failures.clear()")], fuel);
  }
}
