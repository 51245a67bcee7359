/**
 Soundness of the hook analysis for single expressions and statements: which uses of the list the
 analysis does not see, and what every execution of an accepted statement keeps.
 */
module HookSoundness {
  import opened Wrappers
  import opened PythonFragment
  import opened HookAnalyser

  // ---------------------------------------------------------------- the uses the analysis does not see

  /** What the value of an expression may reach: the list itself, or the list through something else. */
  function Carries(e: Expr): (r: Reach)
    decreases e, 1
  {
    match e
    case Name(id) => if id == FAILURES then Direct else Clean
    case Literal(_) => Clean
    case Constant(_) => Clean
    case Attribute(v, _) => if Carries(v) == Clean then Clean else Through
    case Subscript(v, i) => if Carries(v) == Through || Carries(i) != Clean then Through else Clean
    case Call(_, _, _) => Clean
    case NotEqual(a, b) => if Carries(a) == Clean && Carries(b) == Clean then Clean else Through
    case Walrus(_, v) => Carries(v)
    case Lambda(b) => if Mentions(b) then Through else Clean
    case Display(es) => if Worst(es) == Clean then Clean else Through
    case Boolean(es) => Worst(es)
    case Format(es) => if Worst(es) == Through then Through else Clean
    case Operation(es) => if Worst(es) == Clean then Clean else Through
  }

  function Worst(es: seq<Expr>): (r: Reach)
    decreases es, 0
  {
    if es == [] then Clean else Worse(Carries(es[0]), Worst(es[1..]))
  }

  const APPEND := Attribute(Name(FAILURES), "append")

  /** No step of the evaluation hands the list to foreign code or gives it a second name. */
  predicate Plain(e: Expr)
    decreases e
  {
    match e
    case Name(_) => true
    case Literal(_) => true
    case Constant(_) => true
    case Attribute(v, _) => Plain(v) && Carries(v) != Through
    case Subscript(v, i) => Plain(v) && Plain(i) && Carries(v) != Through && Carries(i) == Clean
    case Call(f, args, _) =>
      && (f == APPEND || Carries(f) == Clean) && Worst(args) == Clean && Plain(f)
      && forall i :: 0 <= i < |args| ==> Plain(args[i])
    case NotEqual(a, b) => Plain(a) && Plain(b) && Handed(Worse(Carries(a), Carries(b)), [a, b]) != Through
    case Walrus(_, v) => Plain(v) && Carries(v) == Clean
    case Lambda(_) => true
    case Display(es) => forall i :: 0 <= i < |es| ==> Plain(es[i])
    case Boolean(es) => forall i :: 0 <= i < |es| ==> Plain(es[i])
    case Format(es) => Worst(es) != Through && forall i :: 0 <= i < |es| ==> Plain(es[i])
    case Operation(es) => Handed(Worst(es), es) != Through && forall i :: 0 <= i < |es| ==> Plain(es[i])
  }

  /** A place that is a name, or belongs to something that neither is nor gets the list. */
  predicate PlainTarget(t: Expr)
    decreases t
  {
    match t
    case Display(ts) => forall i :: 0 <= i < |ts| ==> PlainTarget(ts[i])
    case Attribute(owner, _) => Plain(owner) && Carries(owner) == Clean
    case Subscript(owner, i) => Plain(owner) && Carries(owner) == Clean && Plain(i) && Carries(i) == Clean
    case _ => true
  }

  predicate PlainTargets(ts: seq<Expr>) { forall i :: 0 <= i < |ts| ==> PlainTarget(ts[i]) }

  /**
   What a maintainer has to keep besides the analysis so that the list is not lost: no expression
   hands it on, and loops, context managers, handlers, imports, declarations and local definitions
   neither rebind `failures` nor carry it.
   */
  predicate Disciplined(s: Stmt)
    decreases s
  {
    match s
    case Assign(ts, v) => PlainTargets(ts) && Plain(v)
    case AnnAssign(t, v) => PlainTarget(t) && (v.Some? ==> Plain(v.value))
    case AugAssign(t, v) => PlainTarget(t) && Plain(v)
    case Delete(ts) => PlainTargets(ts)
    case Do(e) => Plain(e)
    case If(t, b, o) => Plain(t) && BlockDisciplined(b) && BlockDisciplined(o)
    case While(t, b, o) => Plain(t) && BlockDisciplined(b) && BlockDisciplined(o)
    case For(t, i, b, o) =>
      && PlainTarget(t) && !TargetReferences(t) && Plain(i) && Carries(i) != Through
      && BlockDisciplined(b) && BlockDisciplined(o)
    case With(c, t, b) =>
      && Plain(c) && Carries(c) == Clean && BlockDisciplined(b)
      && (t.Some? ==> PlainTarget(t.value) && !TargetReferences(t.value))
    case Try(b, h, o, f) =>
      && BlockDisciplined(b) && BlockDisciplined(o) && BlockDisciplined(f)
      && forall i :: 0 <= i < |h| ==> h[i].name != Some(FAILURES) && BlockDisciplined(h[i].body)
    case Def(n, b) => n != FAILURES && !MentionsBlock(b)
    case Class(n, b) => n != FAILURES && !MentionsBlock(b)
    case Import(ns) => FAILURES !in ns
    case Assert(t, m) => Plain(t) && (m.Some? ==> Plain(m.value) && Carries(m.value) == Clean)
    case Scope(ns) => FAILURES !in ns
    case _ => true
  }

  predicate BlockDisciplined(ss: seq<Stmt>)
    decreases ss
  {
    forall i :: 0 <= i < |ss| ==> Disciplined(ss[i])
  }

  // ---------------------------------------------------------------- calls that may end the process

  /** Every call that evaluating the expression makes appends to the list or is one of the callees. */
  predicate Listed(e: Expr, callees: set<Expr>)
    decreases e
  {
    match e
    case Name(_) => true
    case Literal(_) => true
    case Constant(_) => true
    case Attribute(v, _) => Listed(v, callees)
    case Subscript(v, i) => Listed(v, callees) && Listed(i, callees)
    case Call(f, args, _) =>
      (f == APPEND || f in callees) && Listed(f, callees) && forall i :: 0 <= i < |args| ==> Listed(args[i], callees)
    case NotEqual(a, b) => Listed(a, callees) && Listed(b, callees)
    case Walrus(_, v) => Listed(v, callees)
    case Lambda(_) => true
    case Display(es) => forall i :: 0 <= i < |es| ==> Listed(es[i], callees)
    case Boolean(es) => forall i :: 0 <= i < |es| ==> Listed(es[i], callees)
    case Format(es) => forall i :: 0 <= i < |es| ==> Listed(es[i], callees)
    case Operation(es) => forall i :: 0 <= i < |es| ==> Listed(es[i], callees)
  }

  predicate AllListed(es: seq<Expr>, callees: set<Expr>) { forall i :: 0 <= i < |es| ==> Listed(es[i], callees) }

  /** The same for a statement; a class body runs at once, so there is none. */
  predicate CallsListed(s: Stmt, callees: set<Expr>)
    decreases s
  {
    AllListed(Own(s), callees) &&
    match s
    case If(_, b, o) => BlockListed(b, callees) && BlockListed(o, callees)
    case While(_, b, o) => BlockListed(b, callees) && BlockListed(o, callees)
    case For(_, _, b, o) => BlockListed(b, callees) && BlockListed(o, callees)
    case With(_, _, b) => BlockListed(b, callees)
    case Try(b, h, o, f) =>
      && BlockListed(b, callees) && BlockListed(o, callees) && BlockListed(f, callees)
      && forall i :: 0 <= i < |h| ==> BlockListed(h[i].body, callees)
    case Class(_, _) => false
    case _ => true
  }

  predicate BlockListed(ss: seq<Stmt>, callees: set<Expr>)
    decreases ss
  {
    forall i :: 0 <= i < |ss| ==> CallsListed(ss[i], callees)
  }

  /** No named expression binds one of the names. */
  predicate SparesIn(e: Expr, names: set<string>)
    decreases e
  {
    match e
    case Name(_) => true
    case Literal(_) => true
    case Constant(_) => true
    case Attribute(v, _) => SparesIn(v, names)
    case Subscript(v, i) => SparesIn(v, names) && SparesIn(i, names)
    case Call(f, args, _) => SparesIn(f, names) && forall i :: 0 <= i < |args| ==> SparesIn(args[i], names)
    case NotEqual(a, b) => SparesIn(a, names) && SparesIn(b, names)
    case Walrus(x, v) => x !in names && SparesIn(v, names)
    case Lambda(_) => true
    case Display(es) => forall i :: 0 <= i < |es| ==> SparesIn(es[i], names)
    case Boolean(es) => forall i :: 0 <= i < |es| ==> SparesIn(es[i], names)
    case Format(es) => forall i :: 0 <= i < |es| ==> SparesIn(es[i], names)
    case Operation(es) => forall i :: 0 <= i < |es| ==> SparesIn(es[i], names)
  }

  predicate SparesAll(es: seq<Expr>, names: set<string>) { forall i :: 0 <= i < |es| ==> SparesIn(es[i], names) }

  /** Assigning to the place binds none of the names. */
  predicate SparesTarget(t: Expr, names: set<string>)
    decreases t
  {
    match t
    case Name(x) => x !in names
    case Display(ts) => forall i :: 0 <= i < |ts| ==> SparesTarget(ts[i], names)
    case _ => true
  }

  /** The statement binds none of the names. */
  predicate Spares(s: Stmt, names: set<string>)
    decreases s
  {
    SparesAll(Own(s), names) &&
    match s
    case Assign(ts, _) => forall i :: 0 <= i < |ts| ==> SparesTarget(ts[i], names)
    case AnnAssign(t, _) => SparesTarget(t, names)
    case AugAssign(t, _) => SparesTarget(t, names)
    case Delete(ts) => forall i :: 0 <= i < |ts| ==> SparesTarget(ts[i], names)
    case If(_, b, o) => SparesBlock(b, names) && SparesBlock(o, names)
    case While(_, b, o) => SparesBlock(b, names) && SparesBlock(o, names)
    case For(t, _, b, o) => SparesTarget(t, names) && SparesBlock(b, names) && SparesBlock(o, names)
    case With(_, t, b) => (t.Some? ==> SparesTarget(t.value, names)) && SparesBlock(b, names)
    case Try(b, h, o, f) =>
      && SparesBlock(b, names) && SparesBlock(o, names) && SparesBlock(f, names)
      && forall i :: 0 <= i < |h| ==> (h[i].name.Some? ==> h[i].name.value !in names) && SparesBlock(h[i].body, names)
    case Def(n, _) => n !in names
    case Class(n, _) => n !in names
    case Import(ns) => forall i :: 0 <= i < |ns| ==> ns[i] !in names
    case _ => true
  }

  predicate SparesBlock(ss: seq<Stmt>, names: set<string>)
    decreases ss
  {
    forall i :: 0 <= i < |ss| ==> Spares(ss[i], names)
  }

  /** Callees that a reader of the program trusts, with the names that must keep their meaning for it. */
  datatype Terms = Terms(names: set<string>, callees: set<Expr>)

  /** The names that the callees start from are among those that keep their meaning. */
  ghost predicate Fair(t: Terms) {
    forall f :: f in t.callees && Root(f).Some? ==> Root(f).value in t.names
  }

  /** The trust is justified: the callees are tame, and implicit code does nothing surprising. */
  ghost predicate Trusts(w: World, t: Terms) { !w.implicit && t.callees <= w.tame && Fair(t) }

  /** The list exists and none of the names is bound. */
  ghost predicate Peaceful(st: State, w: World, t: Terms) {
    Trusts(w, t) && FAILURES in st.vars && forall x <- t.names :: x !in st.vars
  }

  // ---------------------------------------------------------------- the invariant

  /** Only the variable `failures` reaches the list. */
  ghost predicate Guarded(st: State) {
    && !st.leaked
    && (FAILURES in st.vars ==> st.vars[FAILURES].TheList?)
    && (forall x :: x in st.vars && x != FAILURES ==> !Reaching(st.vars[x]))
  }

  /** The list only grew, whoever owned it still does, and no name of the terms got bound. */
  ghost predicate Kept(st: State, st': State, t: Terms) {
    && Guarded(st')
    && st.entries <= st'.entries
    && (FAILURES in st.vars ==> FAILURES in st'.vars)
    && forall x <- t.names :: x in st'.vars ==> x in st.vars
  }

  lemma PeaceKept(st: State, st': State, w: World, t: Terms)
    requires Peaceful(st, w, t) && Kept(st, st', t)
    ensures Peaceful(st', w, t)
  {
    hide Trusts, Guarded;
  }

  lemma QuietKept(st: State, c: Choice, t: Terms)
    requires Guarded(st)
    ensures Kept(st, Quiet(st, c), t) && Kept(st, Still(st, c), t)
  {
  }

  /** Implicit code does not reach the list by inspection. */
  predicate Unobserved(w: World) { !w.pries || !w.implicit }

  /** Nothing inspects the frame, or all calls are listed and the trust in them is justified. */
  ghost predicate Calm(st: State, w: World, t: Terms, listed: bool) { !w.pries || (listed && Peaceful(st, w, t)) }

  lemma CalmUnobserved(st: State, w: World, t: Terms, listed: bool)
    requires Calm(st, w, t, listed)
    ensures Unobserved(w)
  {
  }

  lemma CalmKept(st: State, st1: State, w: World, t: Terms, listed: bool)
    requires Calm(st, w, t, listed) && Kept(st, st1, t)
    ensures Calm(st1, w, t, listed) && (Peaceful(st, w, t) ==> Peaceful(st1, w, t))
  {
    hide Trusts, Guarded;
  }

  lemma SettledKept(st: State, w: World, t: Terms)
    requires Guarded(st) && Unobserved(w)
    ensures Kept(st, Settled(st, Now(st, w), w), t)
  {
    hide Quiet, Still;
    QuietKept(st, Now(st, w), t);
  }

  /** A step that hands nothing on: it keeps the list, and ends the process only in implicit code. */
  ghost predicate Mild(st: State, e: Eval, w: World, t: Terms, r: Reach) {
    Kept(st, e.st, t) && (!w.implicit ==> !e.Exits?) && (e.Val? ==> AtMost(ReachOf(e.v), r))
  }

  /** In the order clean, the list itself, the list through something else. */
  predicate AtMost(a: Reach, b: Reach) { a == Clean || b == Through || a == b }

  lemma OutcomeMild(r: Reach, st: State, w: World, t: Terms)
    requires Guarded(st) && Unobserved(w) && r != Through
    ensures Mild(st, Outcome(r, st, w), w, t, if r == Clean then Clean else Through)
  {
    hide Settled;
    SettledKept(st, w, t);
  }

  lemma NextMild(r: Reach, st: State, w: World, t: Terms)
    requires Guarded(st) && Unobserved(w) && r != Through
    ensures Mild(st, Next(r, st, w), w, t, Clean)
  {
    hide Settled;
    SettledKept(st, w, t);
  }

  lemma PickedMild(r: Reach, st: State, w: World, t: Terms)
    requires Guarded(st) && Unobserved(w)
    ensures Mild(st, Picked(r, st, w), w, t, r)
  {
    hide Settled;
    SettledKept(st, w, t);
  }

  lemma CollectedMild(r: Reach, st: State, w: World, t: Terms)
    requires Guarded(st) && Unobserved(w)
    ensures Mild(st, Collected(r, st, w), w, t, if r == Clean then Clean else Through)
  {
    hide Settled;
    SettledKept(st, w, t);
  }

  lemma TestedMild(v: Value, st: State, w: World, t: Terms)
    requires Guarded(st) && Unobserved(w)
    ensures Mild(st, Tested(v, st, w), w, t, Clean)
  {
    hide Settled;
    SettledKept(st, w, t);
  }

  lemma InvokeSafe(tame: bool, st: State, w: World, t: Terms)
    requires Guarded(st) && (tame || !w.pries)
    ensures var e := Invoke(tame, Clean, st, w);
            Kept(st, e.st, t) && (tame ==> !e.Exits?) && (e.Val? ==> !Reaching(e.v))
  {
    hide Quiet, Still;
    QuietKept(st, Now(st, w), t);
  }

  // ---------------------------------------------------------------- expressions keep the invariant

  predicate Safe(e: Expr, t: Terms) { Plain(e) && !ClobberIn(e) && !ExitIn(e) && SparesIn(e, t.names) }

  predicate AllSafe(es: seq<Expr>, t: Terms) { forall i :: 0 <= i < |es| ==> Safe(es[i], t) }

  /**
   Evaluating keeps the list, yields no more of it than the text says, and does not end the process if
   all calls are listed and the trust in them is justified.
   */
  ghost predicate Harmless(e: Expr, st: State, r: Eval, w: World, t: Terms) {
    && Kept(st, r.st, t)
    && (r.Val? ==> AtMost(ReachOf(r.v), Carries(e)))
    && (Peaceful(st, w, t) && Listed(e, t.callees) ==> !r.Exits?)
  }

  lemma {:induction false} EvaluateSafe(e: Expr, st: State, w: World, t: Terms)
    requires Guarded(st) && Calm(st, w, t, Listed(e, t.callees)) && Safe(e, t)
    ensures Harmless(e, st, Evaluate(e, st, w), w, t)
    decreases e, 3
  {
    hide Evaluate, EvaluateAll, Plain, ClobberIn, ExitIn, SparesIn, Listed, Harmless;
    match e {
      case Attribute(_, _) => AttributeSafe(e, st, w, t);
      case Subscript(_, _) => SubscriptSafe(e, st, w, t);
      case Call(_, _, _) => CallSafe(e, st, w, t);
      case NotEqual(_, _) => NotEqualSafe(e, st, w, t);
      case Walrus(_, _) => WalrusSafe(e, st, w, t);
      case Display(_) => ContainerSafe(e, st, w, t);
      case Format(_) => ContainerSafe(e, st, w, t);
      case Boolean(_) => OperatorSafe(e, st, w, t);
      case Operation(_) => OperatorSafe(e, st, w, t);
      case _ => LeafSafe(e, st, w, t);
    }
  }

  lemma LeafSafe(e: Expr, st: State, w: World, t: Terms)
    requires Guarded(st) && Safe(e, t) && (e.Name? || e.Literal? || e.Constant? || e.Lambda?)
    ensures Harmless(e, st, Evaluate(e, st, w), w, t)
  {
    hide Peaceful;
  }

  lemma {:induction false} AttributeSafe(e: Expr, st: State, w: World, t: Terms)
    requires Guarded(st) && Calm(st, w, t, Listed(e, t.callees)) && Safe(e, t) && e.Attribute?
    ensures Harmless(e, st, Evaluate(e, st, w), w, t)
    decreases e, 0
  {
    hide Outcome, Peaceful;
    EvaluateSafe(e.value, st, w, t);
    var r := Evaluate(e.value, st, w);
    if r.Val? {
      CalmUnobserved(st, w, t, Listed(e, t.callees));
      OutcomeMild(ReachOf(r.v), r.st, w, t);
      NotImplicit(st, w, t);
    }
  }

  lemma NotImplicit(st: State, w: World, t: Terms)
    ensures Peaceful(st, w, t) ==> !w.implicit
  {
  }

  /** Two operands, evaluated one after the other. */
  lemma {:induction false} PairSafe(e: Expr, a: Expr, b: Expr, st: State, w: World, t: Terms)
    requires e == Subscript(a, b) || e == NotEqual(a, b)
    requires Guarded(st) && Calm(st, w, t, Listed(e, t.callees)) && Safe(a, t) && Safe(b, t)
    ensures var ra := Evaluate(a, st, w);
            var rb := Evaluate(b, ra.st, w);
            && Kept(st, ra.st, t) && (ra.Val? ==> AtMost(ReachOf(ra.v), Carries(a)) && Kept(st, rb.st, t))
            && (ra.Val? && rb.Val? ==> AtMost(ReachOf(rb.v), Carries(b)))
            && (Peaceful(st, w, t) && Listed(e, t.callees) ==> !ra.Exits? && (ra.Val? ==> !rb.Exits?))
    decreases e, 0
  {
    hide Evaluate, Peaceful, Guarded, Carries, Safe, AtMost;
    EvaluateSafe(a, st, w, t);
    var ra := Evaluate(a, st, w);
    if ra.Val? {
      CalmKept(st, ra.st, w, t, Listed(e, t.callees));
      EvaluateSafe(b, ra.st, w, t);
    }
  }

  lemma {:induction false} SubscriptSafe(e: Expr, st: State, w: World, t: Terms)
    requires Guarded(st) && Calm(st, w, t, Listed(e, t.callees)) && Safe(e, t) && e.Subscript?
    ensures Harmless(e, st, Evaluate(e, st, w), w, t)
    decreases e, 1
  {
    hide Outcome, Next, Peaceful, Listed;
    PairSafe(e, e.value, e.index, st, w, t);
    var r := Evaluate(e.value, st, w);
    var ri := Evaluate(e.index, r.st, w);
    if r.Val? && ri.Val? {
      CalmUnobserved(st, w, t, Listed(e, t.callees));
      NextMild(ReachOf(r.v), ri.st, w, t);
      NotImplicit(st, w, t);
    }
  }

  lemma {:induction false} NotEqualSafe(e: Expr, st: State, w: World, t: Terms)
    requires Guarded(st) && Calm(st, w, t, Listed(e, t.callees)) && Safe(e, t) && e.NotEqual?
    ensures Harmless(e, st, Evaluate(e, st, w), w, t)
    decreases e, 1
  {
    hide Outcome, Peaceful, Lone, Listed;
    PairSafe(e, e.left, e.right, st, w, t);
    var r := Evaluate(e.left, st, w);
    var ri := Evaluate(e.right, r.st, w);
    if r.Val? && ri.Val? {
      CalmUnobserved(st, w, t, Listed(e, t.callees));
      OutcomeMild(Handed(Worse(ReachOf(r.v), ReachOf(ri.v)), [e.left, e.right]), ri.st, w, t);
      NotImplicit(st, w, t);
    }
  }

  lemma {:induction false} WalrusSafe(e: Expr, st: State, w: World, t: Terms)
    requires Guarded(st) && Calm(st, w, t, Listed(e, t.callees)) && Safe(e, t) && e.Walrus?
    ensures Harmless(e, st, Evaluate(e, st, w), w, t)
    decreases e, 0
  {
    hide Peaceful;
    EvaluateSafe(e.value, st, w, t);
  }

  /** Containers and f-strings, whose parts are all evaluated. */
  lemma {:induction false} ContainerSafe(e: Expr, st: State, w: World, t: Terms)
    requires Guarded(st) && Calm(st, w, t, Listed(e, t.callees)) && Safe(e, t) && (e.Display? || e.Format?)
    ensures Harmless(e, st, Evaluate(e, st, w), w, t)
    decreases e, 0
  {
    hide Outcome, Collected, Peaceful, Guarded, Worst;
    var es := if e.Display? then e.elts else e.parts;
    EvaluateAllSafe(es, st, w, t);
    var r := EvaluateAll(es, st, w);
    if r.Vals? {
      CalmUnobserved(st, w, t, Listed(e, t.callees));
      if e.Display? { CollectedMild(r.reach, r.st, w, t); } else { OutcomeMild(Clean, r.st, w, t); }
      NotImplicit(st, w, t);
    }
  }

  /** Operators, some of whose operands may be passed over. */
  lemma {:induction false} OperatorSafe(e: Expr, st: State, w: World, t: Terms)
    requires Guarded(st) && Calm(st, w, t, Listed(e, t.callees)) && Safe(e, t) && (e.Boolean? || e.Operation?)
    ensures Harmless(e, st, Evaluate(e, st, w), w, t)
    decreases e, 0
  {
    hide Outcome, Picked, Peaceful, Guarded, Worst, Lone;
    EvaluateSomeSafe(e.parts, st, w, t);
    var r := EvaluateSome(e.parts, st, w);
    if r.Vals? {
      CalmUnobserved(st, w, t, Listed(e, t.callees));
      if e.Boolean? { PickedMild(r.reach, r.st, w, t); } else { OutcomeMild(Handed(r.reach, e.parts), r.st, w, t); }
      NotImplicit(st, w, t);
    }
  }

  /** What the callee of a safe call evaluates to, and whether the call is tame. */
  lemma {:induction false} CalleeSafe(e: Expr, st: State, w: World, t: Terms)
    requires Guarded(st) && Calm(st, w, t, Listed(e, t.callees)) && Safe(e, t) && e.Call?
    ensures var rf := if AppendsTo(e.func, st) then Val(Other, st) else Evaluate(e.func, st, w);
            && Kept(st, rf.st, t) && (rf.Val? ==> !Reaching(rf.v))
            && (Peaceful(st, w, t) && Listed(e, t.callees) ==>
                  !rf.Exits? && (AppendsTo(e.func, st) || TameCall(e.func, st, w)))
    decreases e, 0
  {
    hide Outcome, AttributeOf, Worst;
    var f := e.func;
    EvaluateSafe(f, st, w, t);
    if f == APPEND && FAILURES !in st.vars { UnboundList("append", st, w); }
    if Peaceful(st, w, t) && f in t.callees { ListedIsTame(f, st, w, t); }
  }

  lemma ListedIsTame(f: Expr, st: State, w: World, t: Terms)
    requires Peaceful(st, w, t) && f in t.callees
    ensures TameCall(f, st, w)
  {
  }

  /** The arguments of a safe call, evaluated after its callee. */
  lemma {:induction false} CallPartsSafe(e: Expr, st: State, w: World, t: Terms)
    requires Guarded(st) && Calm(st, w, t, Listed(e, t.callees)) && Safe(e, t) && e.Call?
    ensures var rf := if AppendsTo(e.func, st) then Val(Other, st) else Evaluate(e.func, st, w);
            var ra := EvaluateAll(e.args, rf.st, w);
            rf.Val? ==>
              && Kept(st, ra.st, t) && (ra.Vals? ==> ra.reach == Clean)
              && (Peaceful(st, w, t) && Listed(e, t.callees) ==> !ra.ExitsAll?)
    decreases e, 1
  {
    hide Evaluate, EvaluateAll, Peaceful, TameCall, AppendsTo, Safe, Worst, Guarded;
    CalleeSafe(e, st, w, t);
    ArgumentsSafe(e, t);
    var rf := if AppendsTo(e.func, st) then Val(Other, st) else Evaluate(e.func, st, w);
    if rf.Val? {
      CalmKept(st, rf.st, w, t, Listed(e, t.callees));
      EvaluateAllSafe(e.args, rf.st, w, t);
    }
  }

  lemma {:induction false} CallSafe(e: Expr, st: State, w: World, t: Terms)
    requires Guarded(st) && Calm(st, w, t, Listed(e, t.callees)) && Safe(e, t) && e.Call?
    ensures Harmless(e, st, Evaluate(e, st, w), w, t)
    decreases e, 2
  {
    hide EvaluateAll, Invoke, Peaceful, TameCall, AppendsTo, Safe, Listed;
    CalleeSafe(e, st, w, t);
    CallPartsSafe(e, st, w, t);
    var rf := if AppendsTo(e.func, st) then Val(Other, st) else Evaluate(e.func, st, w);
    if rf.Val? && !AppendsTo(e.func, st) {
      var ra := EvaluateAll(e.args, rf.st, w);
      if ra.Vals? { InvokeSafe(TameCall(e.func, st, w), ra.st, w, t); }
    }
  }

  lemma ArgumentsSafe(e: Expr, t: Terms)
    requires Safe(e, t) && e.Call?
    ensures AllSafe(e.args, t) && Worst(e.args) == Clean
    ensures Listed(e, t.callees) ==> AllListed(e.args, t.callees)
  {
    hide Mentions, Worst;
  }

  /** Before the list exists, reading an attribute of `failures` reaches nothing. */
  lemma UnboundList(attr: string, st: State, w: World)
    requires Guarded(st) && FAILURES !in st.vars
    ensures var r := Evaluate(Attribute(Name(FAILURES), attr), st, w);
            r.Val? ==> !Reaching(r.v)
  {
  }

  lemma {:induction false} EvaluateAllSafe(es: seq<Expr>, st: State, w: World, t: Terms)
    requires Guarded(st) && Calm(st, w, t, AllListed(es, t.callees)) && AllSafe(es, t)
    ensures var r := EvaluateAll(es, st, w);
            && Kept(st, r.st, t)
            && (r.Vals? ==> AtMost(r.reach, Worst(es)))
            && (Peaceful(st, w, t) && AllListed(es, t.callees) ==> !r.ExitsAll?)
    decreases es, 0
  {
    hide Evaluate, Safe, Peaceful, Guarded, Listed, Carries;
    if es != [] {
      EvaluateSafe(es[0], st, w, t);
      var r := Evaluate(es[0], st, w);
      if r.Val? {
        var rest := es[1..];
        CalmKept(st, r.st, w, t, AllListed(es, t.callees));
        assert forall i :: 0 <= i < |rest| ==> rest[i] == es[i + 1];
        EvaluateAllSafe(rest, r.st, w, t);
      }
    }
  }

  lemma {:induction false} EvaluateSomeSafe(es: seq<Expr>, st: State, w: World, t: Terms)
    requires Guarded(st) && Calm(st, w, t, AllListed(es, t.callees)) && AllSafe(es, t)
    ensures var r := EvaluateSome(es, st, w);
            && Kept(st, r.st, t)
            && (r.Vals? ==> AtMost(r.reach, Worst(es)))
            && (Peaceful(st, w, t) && AllListed(es, t.callees) ==> !r.ExitsAll?)
    decreases es, 0
  {
    hide Evaluate, Safe, Peaceful, Listed, Carries;
    if es != [] {
      var rest, st1 := es[1..], Later(st);
      CalmKept(st, st1, w, t, AllListed(es, t.callees));
      assert forall i :: 0 <= i < |rest| ==> rest[i] == es[i + 1];
      if Now(st, w).truth {
        EvaluateSomeSafe(rest, st1, w, t);
      } else {
        EvaluateSafe(es[0], st1, w, t);
        var r := Evaluate(es[0], st1, w);
        if r.Val? {
          CalmKept(st1, r.st, w, t, AllListed(es, t.callees));
          EvaluateSomeSafe(rest, r.st, w, t);
        }
      }
    }
  }

  /** What does not mention the list cannot yield it. */
  lemma {:induction false} UnmentionedClean(e: Expr)
    requires !Mentions(e)
    ensures Carries(e) == Clean
    decreases e, 1
  {
    match e {
      case Attribute(v, _) => UnmentionedClean(v);
      case Subscript(v, i) =>
        UnmentionedClean(v);
        UnmentionedClean(i);
      case NotEqual(a, b) =>
        UnmentionedClean(a);
        UnmentionedClean(b);
      case Walrus(_, v) => UnmentionedClean(v);
      case Display(es) => UnmentionedAll(es);
      case Boolean(es) => UnmentionedAll(es);
      case Format(es) => UnmentionedAll(es);
      case Operation(es) => UnmentionedAll(es);
      case _ =>
    }
  }

  lemma {:induction false} UnmentionedAll(es: seq<Expr>)
    requires !AnyMention(es)
    ensures Worst(es) == Clean
    decreases es, 0
  {
    hide Carries;
    if es != [] {
      assert forall i :: 0 <= i < |es[1..]| ==> es[1..][i] == es[i + 1];
      UnmentionedClean(es[0]);
      UnmentionedAll(es[1..]);
    }
  }

  // ---------------------------------------------------------------- places keep the invariant

  /** The step does not return, the list only grew, and with `listed` calls the process did not end. */
  ghost predicate Benign(st: State, r: Run, w: World, t: Terms, listed: bool) {
    !r.out.Returned? && Kept(st, r.st, t) && (Peaceful(st, w, t) && listed ==> !r.out.Exited?)
  }

  predicate SafeTarget(x: Expr, t: Terms) {
    && PlainTarget(x) && !TargetReferences(x) && !ClobberIn(x) && !ExitIn(x)
    && SparesIn(x, t.names) && SparesTarget(x, t.names)
  }

  predicate SafeTargets(xs: seq<Expr>, t: Terms) { forall i :: 0 <= i < |xs| ==> SafeTarget(xs[i], t) }

  lemma MutateSafe(owner: Value, st: State, w: World, t: Terms)
    requires Guarded(st) && Unobserved(w) && !Reaching(owner)
    ensures Benign(st, Mutate(owner, Clean, st, w), w, t, true)
  {
    hide Settled;
    SettledKept(st, w, t);
  }

  lemma BenignAfter(st: State, st1: State, r: Run, w: World, t: Terms, listed: bool)
    requires Kept(st, st1, t) && Benign(st1, r, w, t, listed)
    ensures Benign(st, r, w, t, listed)
  {
    hide Guarded, Peaceful;
    if Peaceful(st, w, t) { PeaceKept(st, st1, w, t); }
  }

  /** The owner and the index of a place do not reach the list. */
  lemma OwnerSafe(owner: Expr, st: State, w: World, t: Terms)
    requires Guarded(st) && Calm(st, w, t, Listed(owner, t.callees)) && Safe(owner, t) && Carries(owner) == Clean
    ensures var r := Evaluate(owner, st, w);
            && Kept(st, r.st, t) && (r.Val? ==> !Reaching(r.v))
            && (Peaceful(st, w, t) && Listed(owner, t.callees) ==> !r.Exits?)
  {
    hide Evaluate, Peaceful, Guarded;
    EvaluateSafe(owner, st, w, t);
  }

  lemma {:induction false} StoreSafe(x: Expr, v: Value, st: State, w: World, t: Terms)
    requires Guarded(st) && Calm(st, w, t, Listed(x, t.callees)) && SafeTarget(x, t) && !Reaching(v)
    ensures Benign(st, Store(x, v, st, w), w, t, Listed(x, t.callees))
    decreases x, 1
  {
    hide Evaluate, Mutate, Peaceful, Next;
    match x {
      case Display(ts) =>
        ElementsSafe(x, t);
        CalmUnobserved(st, w, t, Listed(x, t.callees));
        NextMild(Clean, st, w, t);
        NotImplicit(st, w, t);
        var r := Next(Clean, st, w);
        if r.Val? {
          CalmKept(st, r.st, w, t, Listed(x, t.callees));
          StoreEachSafe(ts, r.v, r.st, w, t);
          BenignAfter(st, r.st, StoreEach(ts, r.v, r.st, w), w, t, AllListed(ts, t.callees));
        }
      case Attribute(owner, _) =>
        OwnerSafe(owner, st, w, t);
        var r := Evaluate(owner, st, w);
        if r.Val? {
          CalmUnobserved(st, w, t, Listed(x, t.callees));
          MutateSafe(r.v, r.st, w, t);
          BenignAfter(st, r.st, Mutate(r.v, Clean, r.st, w), w, t, true);
        }
      case Subscript(_, _) => StoreItemSafe(x, v, st, w, t);
      case _ =>
    }
  }

  lemma StoreItemSafe(x: Expr, v: Value, st: State, w: World, t: Terms)
    requires Guarded(st) && Calm(st, w, t, Listed(x, t.callees)) && SafeTarget(x, t) && !Reaching(v) && x.Subscript?
    ensures Benign(st, Store(x, v, st, w), w, t, Listed(x, t.callees))
  {
    hide Evaluate, Mutate, Peaceful;
    OwnerSafe(x.value, st, w, t);
    var r := Evaluate(x.value, st, w);
    if r.Val? {
      CalmKept(st, r.st, w, t, Listed(x, t.callees));
      OwnerSafe(x.index, r.st, w, t);
      var ri := Evaluate(x.index, r.st, w);
      if ri.Val? {
        CalmUnobserved(st, w, t, Listed(x, t.callees));
        MutateSafe(r.v, ri.st, w, t);
        BenignAfter(r.st, ri.st, Mutate(r.v, Clean, ri.st, w), w, t, true);
        BenignAfter(st, r.st, Mutate(r.v, Clean, ri.st, w), w, t, true);
      }
    }
  }

  lemma {:induction false} StoreEachSafe(xs: seq<Expr>, v: Value, st: State, w: World, t: Terms)
    requires Guarded(st) && Calm(st, w, t, AllListed(xs, t.callees)) && SafeTargets(xs, t) && !Reaching(v)
    ensures Benign(st, StoreEach(xs, v, st, w), w, t, AllListed(xs, t.callees))
    decreases xs, 0
  {
    hide Store, SafeTarget, Peaceful, Guarded, Listed;
    if xs != [] {
      StoreSafe(xs[0], v, st, w, t);
      var r := Store(xs[0], v, st, w);
      var rest := xs[1..];
      assert forall i :: 0 <= i < |rest| ==> rest[i] == xs[i + 1];
      if r.out.Normal? {
        CalmKept(st, r.st, w, t, AllListed(xs, t.callees));
        StoreEachSafe(rest, v, r.st, w, t);
        BenignAfter(st, r.st, StoreEach(rest, v, r.st, w), w, t, AllListed(rest, t.callees));
      }
    }
  }

  lemma {:induction false} RemoveSafe(x: Expr, st: State, w: World, t: Terms)
    requires Guarded(st) && Calm(st, w, t, Listed(x, t.callees)) && SafeTarget(x, t)
    ensures Benign(st, Remove(x, st, w), w, t, Listed(x, t.callees))
    decreases x, 1
  {
    hide Store, Peaceful, Listed;
    match x {
      case Name(_) =>
      case Display(ts) =>
        ElementsSafe(x, t);
        RemoveEachSafe(ts, st, w, t);
      case _ => StoreSafe(x, Other, st, w, t);
    }
  }

  lemma ElementsSafe(x: Expr, t: Terms)
    requires SafeTarget(x, t) && x.Display?
    ensures SafeTargets(x.elts, t) && (Listed(x, t.callees) ==> AllListed(x.elts, t.callees))
  {
  }

  lemma {:induction false} RemoveEachSafe(xs: seq<Expr>, st: State, w: World, t: Terms)
    requires Guarded(st) && Calm(st, w, t, AllListed(xs, t.callees)) && SafeTargets(xs, t)
    ensures Benign(st, RemoveEach(xs, st, w), w, t, AllListed(xs, t.callees))
    decreases xs, 0
  {
    hide Remove, SafeTarget, Peaceful, Guarded, Listed;
    if xs != [] {
      RemoveSafe(xs[0], st, w, t);
      var r := Remove(xs[0], st, w);
      var rest := xs[1..];
      assert forall i :: 0 <= i < |rest| ==> rest[i] == xs[i + 1];
      if r.out.Normal? {
        CalmKept(st, r.st, w, t, AllListed(xs, t.callees));
        RemoveEachSafe(rest, r.st, w, t);
        BenignAfter(st, r.st, RemoveEach(rest, r.st, w), w, t, AllListed(rest, t.callees));
      }
    }
  }

  lemma AugmentSafe(x: Expr, v: Value, st: State, w: World, t: Terms)
    requires Guarded(st) && Calm(st, w, t, Listed(x, t.callees)) && SafeTarget(x, t) && !Reaching(v)
    ensures Benign(st, Augment(x, v, st, w), w, t, Listed(x, t.callees))
  {
    hide Outcome, Store, Peaceful;
    if x.Name? {
      CalmUnobserved(st, w, t, Listed(x, t.callees));
      OutcomeMild(Clean, st, w, t);
      NotImplicit(st, w, t);
    } else {
      StoreSafe(x, v, st, w, t);
    }
  }

  lemma {:induction false} BindAllSafe(names: seq<string>, st: State, t: Terms)
    requires Guarded(st) && FAILURES !in names && forall i :: 0 <= i < |names| ==> names[i] !in t.names
    ensures Kept(st, BindAll(names, st), t)
  {
    if names != [] { BindAllSafe(names[1..], Bind(names[0], Other, st), t); }
  }

  // ---------------------------------------------------------------- statements keep the invariant

  /** The analysis, the discipline and the kept names together, for one statement. */
  predicate Sound(s: Stmt, t: Terms) { Disciplined(s) && !Clobbers(s) && !HasExit(s) && Spares(s, t.names) }

  predicate SoundBlock(ss: seq<Stmt>, t: Terms) {
    BlockDisciplined(ss) && !BlockClobbers(ss) && !BlockHasExit(ss) && SparesBlock(ss, t.names)
  }

  lemma OwnSafe(s: Stmt, t: Terms, i: nat)
    requires Sound(s, t) && i < |Own(s)|
    ensures !ClobberIn(Own(s)[i]) && !ExitIn(Own(s)[i]) && SparesIn(Own(s)[i], t.names)
  {
  }

  lemma OwnListed(s: Stmt, t: Terms)
    ensures CallsListed(s, t.callees) ==> AllListed(Own(s), t.callees)
  {
  }

  lemma PartsSafe(s: Stmt, t: Terms)
    requires Sound(s, t)
    ensures s.Assign? ==> SafeTargets(s.targets, t) && Safe(s.value, t) && Carries(s.value) == Clean
    ensures s.AnnAssign? ==>
              SafeTarget(s.target, t) && (s.init.Some? ==> Safe(s.init.value, t) && Carries(s.init.value) == Clean)
    ensures s.AugAssign? ==> SafeTarget(s.target, t) && Safe(s.value, t) && Carries(s.value) == Clean
    ensures s.Delete? ==> SafeTargets(s.targets, t)
    ensures s.Do? ==> Safe(s.expr, t)
    ensures s.If? || s.While? ==> Safe(s.test, t)
    ensures s.For? ==> SafeTarget(s.target, t) && Safe(s.iter, t) && Carries(s.iter) != Through
    ensures s.Assert? ==>
              Safe(s.test, t) && (s.message.Some? ==> Safe(s.message.value, t) && Carries(s.message.value) == Clean)
    ensures s.With? ==>
              Safe(s.context, t) && Carries(s.context) == Clean && (s.bound.Some? ==> SafeTarget(s.bound.value, t))
  {
    hide Plain, PlainTarget, ClobberIn, ExitIn, Mentions, SparesIn, SparesTarget, BlockDisciplined, BlockClobbers,
         BlockHasExit, SparesBlock;
    var es := Own(s);
    forall i | 0 <= i < |es|
      ensures !ClobberIn(es[i]) && !ExitIn(es[i]) && SparesIn(es[i], t.names) {
      OwnSafe(s, t, i);
    }
    match s {
      case Assign(ts, v) =>
        assert forall i :: 0 <= i < |ts| ==> es[i] == ts[i];
        assert es[|ts|] == v;
        UnmentionedClean(v);
      case AnnAssign(x, v) =>
        assert es[0] == x;
        if v.Some? {
          assert es[1] == v.value;
          UnmentionedClean(v.value);
        }
      case AugAssign(x, v) =>
        assert es[0] == x && es[1] == v;
        UnmentionedClean(v);
      case Do(e) => assert es[0] == e;
      case If(e, _, _) => assert es[0] == e;
      case While(e, _, _) => assert es[0] == e;
      case For(x, i, _, _) => assert es[0] == x && es[1] == i;
      case With(c, b, _) =>
        assert es[0] == c;
        if b.Some? { assert es[1] == b.value; }
      case Assert(e, m) =>
        assert es[0] == e;
        if m.Some? { assert es[1] == m.value; }
      case _ =>
    }
  }

  /** The listed parts of a statement whose calls are listed. */
  lemma PartsListed(s: Stmt, t: Terms)
    requires CallsListed(s, t.callees)
    ensures s.Assign? ==> AllListed(s.targets, t.callees) && Listed(s.value, t.callees)
    ensures s.AnnAssign? ==> Listed(s.target, t.callees) && (s.init.Some? ==> Listed(s.init.value, t.callees))
    ensures s.AugAssign? ==> Listed(s.target, t.callees) && Listed(s.value, t.callees)
    ensures s.Delete? ==> AllListed(s.targets, t.callees)
    ensures s.Do? ==> Listed(s.expr, t.callees)
    ensures s.If? || s.While? ==> Listed(s.test, t.callees)
    ensures s.For? ==> Listed(s.target, t.callees) && Listed(s.iter, t.callees)
    ensures s.Assert? ==> Listed(s.test, t.callees) && (s.message.Some? ==> Listed(s.message.value, t.callees))
    ensures s.With? ==> Listed(s.context, t.callees) && (s.bound.Some? ==> Listed(s.bound.value, t.callees))
  {
    hide Listed, BlockListed;
    OwnListed(s, t);
    var es := Own(s);
    match s {
      case Assign(ts, v) =>
        assert forall i :: 0 <= i < |ts| ==> es[i] == ts[i];
        assert es[|ts|] == v;
      case AnnAssign(x, v) =>
        assert es[0] == x;
        if v.Some? { assert es[1] == v.value; }
      case AugAssign(x, v) => assert es[0] == x && es[1] == v;
      case Do(e) => assert es[0] == e;
      case If(e, _, _) => assert es[0] == e;
      case While(e, _, _) => assert es[0] == e;
      case For(x, i, _, _) => assert es[0] == x && es[1] == i;
      case With(c, b, _) =>
        assert es[0] == c;
        if b.Some? { assert es[1] == b.value; }
      case Assert(e, m) =>
        assert es[0] == e;
        if m.Some? { assert es[1] == m.value; }
      case _ =>
    }
  }

  /** What soundness says about the blocks of a statement. */
  lemma BlocksSound(s: Stmt, t: Terms)
    requires Sound(s, t)
    ensures !s.Return? && !s.Raise? && !FreshList(s)
    ensures s.If? || s.While? || s.For? ==> SoundBlock(s.body, t) && SoundBlock(s.orelse, t)
    ensures s.With? ==> SoundBlock(s.body, t)
    ensures s.Try? ==> SoundBlock(s.body, t) && SoundBlock(s.orelse, t) && SoundBlock(s.final, t)
    ensures s.Try? ==> forall i :: 0 <= i < |s.handlers| ==>
              && SoundBlock(s.handlers[i].body, t) && s.handlers[i].name != Some(FAILURES)
              && (s.handlers[i].name.Some? ==> s.handlers[i].name.value !in t.names)
    ensures s.Def? || s.Class? ==> s.name != FAILURES && s.name !in t.names && !MentionsBlock(s.body)
    ensures s.Scope? ==> FAILURES !in s.names
    ensures s.Import? ==> FAILURES !in s.names && forall i :: 0 <= i < |s.names| ==> s.names[i] !in t.names
  {
    hide BlockDisciplined, BlockClobbers, BlockHasExit, SparesBlock, Plain, PlainTarget, Mentions, AnyClobber, AnyExit,
         SparesAll;
  }

  lemma BlocksListed(s: Stmt, t: Terms)
    requires CallsListed(s, t.callees)
    ensures !s.Class?
    ensures s.If? || s.While? || s.For? ==> BlockListed(s.body, t.callees) && BlockListed(s.orelse, t.callees)
    ensures s.With? ==> BlockListed(s.body, t.callees)
    ensures s.Try? ==>
              BlockListed(s.body, t.callees) && BlockListed(s.orelse, t.callees) && BlockListed(s.final, t.callees)
    ensures s.Try? ==> forall i :: 0 <= i < |s.handlers| ==> BlockListed(s.handlers[i].body, t.callees)
  {
    hide BlockListed, AllListed;
  }

  lemma {:induction false} ExecuteSafe(s: Stmt, st: State, w: World, fuel: nat, t: Terms)
    requires Guarded(st) && Calm(st, w, t, CallsListed(s, t.callees)) && Sound(s, t)
    ensures Benign(st, Execute(s, st, w, fuel), w, t, CallsListed(s, t.callees))
    decreases fuel, s, 2
  {
    hide Execute, Guarded, Benign, Sound, CallsListed;
    match s {
      case If(_, _, _) => IfSafe(s, st, w, fuel, t);
      case While(_, _, _) => WhileSafe(s, st, w, fuel, t);
      case For(_, _, _, _) => ForSafe(s, st, w, fuel, t);
      case With(_, _, _) => WithSafe(s, st, w, fuel, t);
      case Try(_, _, _, _) => TrySafe(s, st, w, fuel, t);
      case Assign(_, _) => AssignSafe(s, st, w, fuel, t);
      case AnnAssign(_, _) => AnnAssignSafe(s, st, w, fuel, t);
      case AugAssign(_, _) => AugAssignSafe(s, st, w, fuel, t);
      case Def(_, _) => DefinitionSafe(s, st, w, fuel, t);
      case Class(_, _) => DefinitionSafe(s, st, w, fuel, t);
      case Import(_) => DefinitionSafe(s, st, w, fuel, t);
      case Assert(_, _) => AssertSafe(s, st, w, fuel, t);
      case _ => SimpleSafe(s, st, w, fuel, t);
    }
  }

  lemma AssignSafe(s: Stmt, st: State, w: World, fuel: nat, t: Terms)
    requires Guarded(st) && Calm(st, w, t, CallsListed(s, t.callees)) && Sound(s, t) && s.Assign?
    ensures Benign(st, Execute(s, st, w, fuel), w, t, CallsListed(s, t.callees))
  {
    hide Evaluate, StoreEach, Sound, CallsListed, Guarded, Peaceful;
    PartsSafe(s, t);
    if CallsListed(s, t.callees) { PartsListed(s, t); }
    EvaluateSafe(s.value, st, w, t);
    var r := Evaluate(s.value, st, w);
    if r.Val? {
      CalmKept(st, r.st, w, t, CallsListed(s, t.callees));
      StoreEachSafe(s.targets, r.v, r.st, w, t);
      BenignAfter(st, r.st, StoreEach(s.targets, r.v, r.st, w), w, t, AllListed(s.targets, t.callees));
    }
  }

  lemma AnnAssignSafe(s: Stmt, st: State, w: World, fuel: nat, t: Terms)
    requires Guarded(st) && Calm(st, w, t, CallsListed(s, t.callees)) && Sound(s, t) && s.AnnAssign?
    ensures Benign(st, Execute(s, st, w, fuel), w, t, CallsListed(s, t.callees))
  {
    hide Evaluate, Store, Sound, CallsListed, Peaceful;
    PartsSafe(s, t);
    BlocksSound(s, t);
    if CallsListed(s, t.callees) { PartsListed(s, t); }
    if s.init.Some? {
      EvaluateSafe(s.init.value, st, w, t);
      var r := Evaluate(s.init.value, st, w);
      if r.Val? {
        CalmKept(st, r.st, w, t, CallsListed(s, t.callees));
        StoreSafe(s.target, r.v, r.st, w, t);
        BenignAfter(st, r.st, Store(s.target, r.v, r.st, w), w, t, Listed(s.target, t.callees));
      }
    }
  }

  lemma AugAssignSafe(s: Stmt, st: State, w: World, fuel: nat, t: Terms)
    requires Guarded(st) && Calm(st, w, t, CallsListed(s, t.callees)) && Sound(s, t) && s.AugAssign?
    ensures Benign(st, Execute(s, st, w, fuel), w, t, CallsListed(s, t.callees))
  {
    hide Evaluate, Augment, Sound, CallsListed, Guarded, Peaceful;
    PartsSafe(s, t);
    if CallsListed(s, t.callees) { PartsListed(s, t); }
    EvaluateSafe(s.value, st, w, t);
    var r := Evaluate(s.value, st, w);
    if r.Val? {
      CalmKept(st, r.st, w, t, CallsListed(s, t.callees));
      AugmentSafe(s.target, r.v, r.st, w, t);
      BenignAfter(st, r.st, Augment(s.target, r.v, r.st, w), w, t, Listed(s.target, t.callees));
    }
  }

  lemma DefinitionSafe(s: Stmt, st: State, w: World, fuel: nat, t: Terms)
    requires Guarded(st) && Calm(st, w, t, CallsListed(s, t.callees)) && Sound(s, t)
    requires s.Def? || s.Class? || s.Import?
    ensures Benign(st, Execute(s, st, w, fuel), w, t, CallsListed(s, t.callees))
  {
    hide Sound, CallsListed, Peaceful, Outcome, Invoke, BindAll, MentionsBlock;
    BlocksSound(s, t);
    if CallsListed(s, t.callees) { BlocksListed(s, t); }
    if s.Class? {
      InvokeSafe(false, st, w, t);
    } else if s.Import? {
      CalmUnobserved(st, w, t, CallsListed(s, t.callees));
      OutcomeMild(Clean, st, w, t);
      NotImplicit(st, w, t);
      BindAllSafe(s.names, Outcome(Clean, st, w).st, t);
    }
  }

  /** The other statements without blocks. */
  lemma SimpleSafe(s: Stmt, st: State, w: World, fuel: nat, t: Terms)
    requires Guarded(st) && Calm(st, w, t, CallsListed(s, t.callees)) && Sound(s, t)
    requires s.Delete? || s.Do? || s.Return? || s.Raise? || s.Scope? || s.Pass? || s.Break? || s.Continue?
    ensures Benign(st, Execute(s, st, w, fuel), w, t, CallsListed(s, t.callees))
  {
    hide Evaluate, RemoveEach, Sound, CallsListed, Peaceful, Mentions;
    PartsSafe(s, t);
    BlocksSound(s, t);
    if CallsListed(s, t.callees) { PartsListed(s, t); }
    if s.Delete? {
      RemoveEachSafe(s.targets, st, w, t);
    } else if s.Do? {
      EvaluateSafe(s.expr, st, w, t);
    }
  }

  /** The test of a statement, once it has a value. */
  lemma TestSafe(test: Expr, st: State, w: World, t: Terms)
    requires Guarded(st) && Calm(st, w, t, Listed(test, t.callees)) && Safe(test, t) && Evaluate(test, st, w).Val?
    ensures var r := Evaluate(test, st, w);
            var e := Tested(r.v, r.st, w);
            Kept(st, e.st, t) && (Peaceful(st, w, t) ==> !e.Exits?)
  {
    hide Evaluate, Tested, Peaceful;
    EvaluateSafe(test, st, w, t);
    var r := Evaluate(test, st, w);
    CalmUnobserved(st, w, t, Listed(test, t.callees));
    TestedMild(r.v, r.st, w, t);
    NotImplicit(st, w, t);
  }

  lemma AssertSafe(s: Stmt, st: State, w: World, fuel: nat, t: Terms)
    requires Guarded(st) && Calm(st, w, t, CallsListed(s, t.callees)) && Sound(s, t) && s.Assert?
    ensures Benign(st, Execute(s, st, w, fuel), w, t, CallsListed(s, t.callees))
  {
    hide Evaluate, Tested, Sound, CallsListed, Peaceful;
    PartsSafe(s, t);
    if CallsListed(s, t.callees) { PartsListed(s, t); }
    EvaluateSafe(s.test, st, w, t);
    var r := Evaluate(s.test, st, w);
    if r.Val? {
      TestSafe(s.test, st, w, t);
      var st1 := Tested(r.v, r.st, w).st;
      CalmKept(st, st1, w, t, CallsListed(s, t.callees));
      if s.message.Some? { EvaluateSafe(s.message.value, st1, w, t); }
    }
  }

  lemma {:induction false} IfSafe(s: Stmt, st: State, w: World, fuel: nat, t: Terms)
    requires Guarded(st) && Calm(st, w, t, CallsListed(s, t.callees)) && Sound(s, t) && s.If?
    ensures Benign(st, Execute(s, st, w, fuel), w, t, CallsListed(s, t.callees))
    decreases fuel, s, 1
  {
    hide Evaluate, ExecuteBlock, Sound, CallsListed, Peaceful;
    PartsSafe(s, t);
    BlocksSound(s, t);
    if CallsListed(s, t.callees) {
      PartsListed(s, t);
      BlocksListed(s, t);
    }
    EvaluateSafe(s.test, st, w, t);
    var r := Evaluate(s.test, st, w);
    if r.Val? {
      TestSafe(s.test, st, w, t);
      var st1 := Tested(r.v, r.st, w).st;
      CalmKept(st, st1, w, t, CallsListed(s, t.callees));
      ExecuteBlockSafe(s.body, st1, w, fuel, t);
      ExecuteBlockSafe(s.orelse, st1, w, fuel, t);
      BenignAfter(st, st1, ExecuteBlock(s.body, st1, w, fuel), w, t, BlockListed(s.body, t.callees));
      BenignAfter(st, st1, ExecuteBlock(s.orelse, st1, w, fuel), w, t, BlockListed(s.orelse, t.callees));
    }
  }

  lemma {:induction false} WhileSafe(s: Stmt, st: State, w: World, fuel: nat, t: Terms)
    requires Guarded(st) && Calm(st, w, t, CallsListed(s, t.callees)) && Sound(s, t) && s.While?
    ensures Benign(st, Execute(s, st, w, fuel), w, t, CallsListed(s, t.callees))
    decreases fuel, s, 1
  {
    hide Evaluate, ExecuteBlock, Sound, CallsListed, Peaceful;
    PartsSafe(s, t);
    BlocksSound(s, t);
    if CallsListed(s, t.callees) {
      PartsListed(s, t);
      BlocksListed(s, t);
    }
    if fuel > 0 {
      EvaluateSafe(s.test, st, w, t);
      var r := Evaluate(s.test, st, w);
      if r.Val? {
        TestSafe(s.test, st, w, t);
        var st1 := Tested(r.v, r.st, w).st;
        CalmKept(st, st1, w, t, CallsListed(s, t.callees));
        ExecuteBlockSafe(s.orelse, st1, w, fuel, t);
        BenignAfter(st, st1, ExecuteBlock(s.orelse, st1, w, fuel), w, t, BlockListed(s.orelse, t.callees));
        ExecuteBlockSafe(s.body, st1, w, fuel, t);
        var b := ExecuteBlock(s.body, st1, w, fuel);
        BenignAfter(st, st1, b, w, t, BlockListed(s.body, t.callees));
        CalmKept(st, b.st, w, t, CallsListed(s, t.callees));
        ExecuteSafe(s, b.st, w, fuel - 1, t);
        BenignAfter(st, b.st, Execute(s, b.st, w, fuel - 1), w, t, CallsListed(s, t.callees));
      }
    }
  }

  lemma {:induction false} ForSafe(s: Stmt, st: State, w: World, fuel: nat, t: Terms)
    requires Guarded(st) && Calm(st, w, t, CallsListed(s, t.callees)) && Sound(s, t) && s.For?
    ensures Benign(st, Execute(s, st, w, fuel), w, t, CallsListed(s, t.callees))
    decreases fuel, s, 1
  {
    hide Evaluate, Iterate, Sound, CallsListed, Peaceful, Guarded;
    PartsSafe(s, t);
    if CallsListed(s, t.callees) { PartsListed(s, t); }
    EvaluateSafe(s.iter, st, w, t);
    var r := Evaluate(s.iter, st, w);
    if r.Val? {
      CalmKept(st, r.st, w, t, CallsListed(s, t.callees));
      IterateSafe(s, ReachOf(r.v), r.st, w, fuel, t);
      BenignAfter(st, r.st, Iterate(s, ReachOf(r.v), r.st, w, fuel), w, t, CallsListed(s, t.callees));
    }
  }

  lemma {:induction false} IterateSafe(s: Stmt, reach: Reach, st: State, w: World, fuel: nat, t: Terms)
    requires Guarded(st) && Calm(st, w, t, CallsListed(s, t.callees)) && Sound(s, t) && s.For? && reach != Through
    ensures Benign(st, Iterate(s, reach, st, w, fuel), w, t, CallsListed(s, t.callees))
    decreases fuel, s, 0
  {
    hide Next, Store, ExecuteBlock, Sound, CallsListed, Peaceful;
    PartsSafe(s, t);
    BlocksSound(s, t);
    if CallsListed(s, t.callees) {
      PartsListed(s, t);
      BlocksListed(s, t);
    }
    if fuel > 0 {
      CalmUnobserved(st, w, t, CallsListed(s, t.callees));
      NextMild(reach, st, w, t);
      NotImplicit(st, w, t);
      var next := Next(reach, st, w);
      if next.Val? {
        var st1 := Later(next.st);
        CalmKept(st, st1, w, t, CallsListed(s, t.callees));
        ExecuteBlockSafe(s.orelse, st1, w, fuel, t);
        BenignAfter(st, st1, ExecuteBlock(s.orelse, st1, w, fuel), w, t, BlockListed(s.orelse, t.callees));
        StoreSafe(s.target, next.v, st1, w, t);
        var named := Store(s.target, next.v, st1, w);
        BenignAfter(st, st1, named, w, t, Listed(s.target, t.callees));
        CalmKept(st, named.st, w, t, CallsListed(s, t.callees));
        ExecuteBlockSafe(s.body, named.st, w, fuel, t);
        var b := ExecuteBlock(s.body, named.st, w, fuel);
        BenignAfter(st, named.st, b, w, t, BlockListed(s.body, t.callees));
        CalmKept(st, b.st, w, t, CallsListed(s, t.callees));
        IterateSafe(s, reach, b.st, w, fuel - 1, t);
        BenignAfter(st, b.st, Iterate(s, reach, b.st, w, fuel - 1), w, t, CallsListed(s, t.callees));
      }
    }
  }

  lemma {:induction false} WithSafe(s: Stmt, st: State, w: World, fuel: nat, t: Terms)
    requires Guarded(st) && Calm(st, w, t, CallsListed(s, t.callees)) && Sound(s, t) && s.With?
    ensures Benign(st, Execute(s, st, w, fuel), w, t, CallsListed(s, t.callees))
    decreases fuel, s, 1
  {
    hide Outcome, Evaluate, Store, ExecuteBlock, Leave, Sound, CallsListed, Peaceful;
    PartsSafe(s, t);
    BlocksSound(s, t);
    if CallsListed(s, t.callees) {
      PartsListed(s, t);
      BlocksListed(s, t);
    }
    EvaluateSafe(s.context, st, w, t);
    NotImplicit(st, w, t);
    var r := Evaluate(s.context, st, w);
    if r.Val? {
      CalmUnobserved(st, w, t, CallsListed(s, t.callees));
      OutcomeMild(Clean, r.st, w, t);
      var entered := Outcome(Clean, r.st, w);
      if entered.Val? {
        var named := if s.bound.Some? then Store(s.bound.value, entered.v, entered.st, w) else Run(Normal, entered.st);
        if s.bound.Some? {
          CalmKept(st, entered.st, w, t, CallsListed(s, t.callees));
          StoreSafe(s.bound.value, entered.v, entered.st, w, t);
          BenignAfter(st, entered.st, named, w, t, Listed(s.bound.value, t.callees));
        }
        CalmKept(st, named.st, w, t, CallsListed(s, t.callees));
        ExecuteBlockSafe(s.body, named.st, w, fuel, t);
        var b := ExecuteBlock(s.body, named.st, w, fuel);
        LeaveSafe(named.st, b, w, t, BlockListed(s.body, t.callees));
        BenignAfter(st, named.st, Leave(Clean, b, w), w, t, BlockListed(s.body, t.callees));
      }
    }
  }

  lemma LeaveSafe(st: State, b: Run, w: World, t: Terms, listed: bool)
    requires Benign(st, b, w, t, listed) && Unobserved(w)
    ensures Benign(st, Leave(Clean, b, w), w, t, listed)
  {
    hide Outcome, Peaceful;
    OutcomeMild(Clean, b.st, w, t);
    NotImplicit(st, w, t);
  }

  lemma {:induction false} HandledSafe(s: Stmt, st: State, b: Run, w: World, fuel: nat, t: Terms)
    requires Calm(st, w, t, CallsListed(s, t.callees)) && Sound(s, t) && s.Try?
    requires Benign(st, b, w, t, CallsListed(s, t.callees))
    ensures Benign(st, Handled(s, b, w, fuel), w, t, CallsListed(s, t.callees))
    decreases fuel, s, 0
  {
    hide ExecuteBlock, Sound, CallsListed, Peaceful;
    BlocksSound(s, t);
    if CallsListed(s, t.callees) { BlocksListed(s, t); }
    var k := Now(b.st, w).pick;
    CalmKept(st, b.st, w, t, CallsListed(s, t.callees));
    if b.out.Normal? {
      ExecuteBlockSafe(s.orelse, b.st, w, fuel, t);
      BenignAfter(st, b.st, ExecuteBlock(s.orelse, b.st, w, fuel), w, t, BlockListed(s.orelse, t.callees));
    } else if Thrown(b.out) && k < |s.handlers| {
      var st1 := Named(s.handlers[k].name, Later(b.st));
      CalmKept(st, st1, w, t, CallsListed(s, t.callees));
      ExecuteBlockSafe(s.handlers[k].body, st1, w, fuel, t);
      BenignAfter(st, st1, ExecuteBlock(s.handlers[k].body, st1, w, fuel), w, t,
                  BlockListed(s.handlers[k].body, t.callees));
    }
  }

  lemma {:induction false} TrySafe(s: Stmt, st: State, w: World, fuel: nat, t: Terms)
    requires Guarded(st) && Calm(st, w, t, CallsListed(s, t.callees)) && Sound(s, t) && s.Try?
    ensures Benign(st, Execute(s, st, w, fuel), w, t, CallsListed(s, t.callees))
    decreases fuel, s, 1
  {
    hide ExecuteBlock, Handled, Sound, CallsListed, Peaceful, Guarded;
    BlocksSound(s, t);
    var listed := CallsListed(s, t.callees);
    if listed { BlocksListed(s, t); }
    ExecuteBlockSafe(s.body, st, w, fuel, t);
    var b := ExecuteBlock(s.body, st, w, fuel);
    HandledSafe(s, st, b, w, fuel, t);
    var handled := Handled(s, b, w, fuel);
    CalmKept(st, handled.st, w, t, CallsListed(s, t.callees));
    ExecuteBlockSafe(s.final, handled.st, w, fuel, t);
    BenignAfter(st, handled.st, ExecuteBlock(s.final, handled.st, w, fuel), w, t, BlockListed(s.final, t.callees));
  }

  lemma {:induction false} ExecuteBlockSafe(ss: seq<Stmt>, st: State, w: World, fuel: nat, t: Terms)
    requires Guarded(st) && Calm(st, w, t, BlockListed(ss, t.callees)) && SoundBlock(ss, t)
    ensures Benign(st, ExecuteBlock(ss, st, w, fuel), w, t, BlockListed(ss, t.callees))
    decreases fuel, ss, 0
  {
    hide Execute, Guarded, Peaceful, Disciplined, Clobbers, HasExit, Spares, CallsListed;
    if ss != [] {
      ExecuteSafe(ss[0], st, w, fuel, t);
      var r := Execute(ss[0], st, w, fuel);
      var rest := ss[1..];
      assert forall i :: 0 <= i < |rest| ==> rest[i] == ss[i + 1];
      if r.out.Normal? {
        CalmKept(st, r.st, w, t, BlockListed(ss, t.callees));
        ExecuteBlockSafe(rest, r.st, w, fuel, t);
        BenignAfter(st, r.st, ExecuteBlock(rest, r.st, w, fuel), w, t, BlockListed(rest, t.callees));
      }
    }
  }

  // ---------------------------------------------------------------- nothing returns before the hook

  /** A statement without an exit never returns, whatever state it starts in. */
  lemma {:induction false} NoReturn(s: Stmt, st: State, w: World, fuel: nat)
    requires !HasExit(s)
    ensures !Execute(s, st, w, fuel).out.Returned?
    decreases fuel, s, 3
  {
    hide Execute, HasExit;
    match s {
      case If(_, _, _) => NoReturnIf(s, st, w, fuel);
      case While(_, _, _) => NoReturnWhile(s, st, w, fuel);
      case For(_, _, _, _) => NoReturnFor(s, st, w, fuel);
      case With(_, _, _) => NoReturnWith(s, st, w, fuel);
      case Try(_, _, _, _) => NoReturnTry(s, st, w, fuel);
      case _ => NoReturnSimple(s, st, w, fuel);
    }
  }

  lemma NoReturnSimple(s: Stmt, st: State, w: World, fuel: nat)
    requires !HasExit(s) && !s.If? && !s.While? && !s.For? && !s.With? && !s.Try?
    ensures !Execute(s, st, w, fuel).out.Returned?
  {
    hide Evaluate, AnyExit, Outcome, Tested, Invoke, BindAll, Store, StoreEach, RemoveEach;
    match s {
      case Assign(ts, v) =>
        var r := Evaluate(v, st, w);
        if r.Val? { StoresDoNotReturn(ts, r.v, r.st, w); }
      case AnnAssign(t, init) =>
        if init.Some? {
          var r := Evaluate(init.value, st, w);
          if r.Val? { StoreDoesNotReturn(t, r.v, r.st, w); }
        }
      case AugAssign(t, v) =>
        var r := Evaluate(v, st, w);
        if r.Val? { StoreDoesNotReturn(t, r.v, r.st, w); }
      case Delete(ts) => RemovesDoNotReturn(ts, st, w);
      case _ =>
    }
  }

  lemma {:induction false} NoReturnIf(s: Stmt, st: State, w: World, fuel: nat)
    requires !HasExit(s) && s.If?
    ensures !Execute(s, st, w, fuel).out.Returned?
    decreases fuel, s, 1
  {
    hide Evaluate, AnyExit, Tested, ExecuteBlock;
    var r := Evaluate(s.test, st, w);
    if r.Val? {
      var st1 := Tested(r.v, r.st, w).st;
      NoReturnBlock(s.body, st1, w, fuel);
      NoReturnBlock(s.orelse, st1, w, fuel);
    }
  }

  lemma {:induction false} NoReturnWhile(s: Stmt, st: State, w: World, fuel: nat)
    requires !HasExit(s) && s.While?
    ensures !Execute(s, st, w, fuel).out.Returned?
    decreases fuel, s, 1
  {
    hide Evaluate, AnyExit, Tested, ExecuteBlock;
    var r := Evaluate(s.test, st, w);
    if fuel > 0 && r.Val? {
      var st1 := Tested(r.v, r.st, w).st;
      NoReturnBlock(s.orelse, st1, w, fuel);
      NoReturnBlock(s.body, st1, w, fuel);
      NoReturn(s, ExecuteBlock(s.body, st1, w, fuel).st, w, fuel - 1);
    }
  }

  lemma {:induction false} NoReturnFor(s: Stmt, st: State, w: World, fuel: nat)
    requires !HasExit(s) && s.For?
    ensures !Execute(s, st, w, fuel).out.Returned?
    decreases fuel, s, 2
  {
    hide Evaluate, Iterate;
    var r := Evaluate(s.iter, st, w);
    if r.Val? { NoReturnIterate(s, ReachOf(r.v), r.st, w, fuel); }
  }

  lemma {:induction false} NoReturnWith(s: Stmt, st: State, w: World, fuel: nat)
    requires !HasExit(s) && s.With?
    ensures !Execute(s, st, w, fuel).out.Returned?
    decreases fuel, s, 1
  {
    hide Evaluate, AnyExit, Outcome, Store, ExecuteBlock;
    var r := Evaluate(s.context, st, w);
    if r.Val? {
      var entered := Outcome(ReachOf(r.v), r.st, w);
      if entered.Val? {
        if s.bound.Some? { StoreDoesNotReturn(s.bound.value, entered.v, entered.st, w); }
        var named := if s.bound.Some? then Store(s.bound.value, entered.v, entered.st, w) else Run(Normal, entered.st);
        NoReturnBlock(s.body, named.st, w, fuel);
      }
    }
  }

  lemma {:induction false} NoReturnTry(s: Stmt, st: State, w: World, fuel: nat)
    requires !HasExit(s) && s.Try?
    ensures !Execute(s, st, w, fuel).out.Returned?
    decreases fuel, s, 1
  {
    NoReturnBlock(s.body, st, w, fuel);
    var b := ExecuteBlock(s.body, st, w, fuel);
    var k := Now(b.st, w).pick;
    NoReturnBlock(s.orelse, b.st, w, fuel);
    if k < |s.handlers| {
      NoReturnBlock(s.handlers[k].body, Named(s.handlers[k].name, Later(b.st)), w, fuel);
    }
    NoReturnBlock(s.final, Handled(s, b, w, fuel).st, w, fuel);
  }

  lemma {:induction false} NoReturnIterate(s: Stmt, reach: Reach, st: State, w: World, fuel: nat)
    requires !HasExit(s) && s.For?
    ensures !Iterate(s, reach, st, w, fuel).out.Returned?
    decreases fuel, s, 1
  {
    hide Evaluate, Next, AnyExit;
    if fuel > 0 {
      var next := Next(reach, st, w);
      if next.Val? {
        NoReturnBlock(s.orelse, Later(next.st), w, fuel);
        StoreDoesNotReturn(s.target, next.v, Later(next.st), w);
        var named := Store(s.target, next.v, Later(next.st), w);
        NoReturnBlock(s.body, named.st, w, fuel);
        NoReturnIterate(s, reach, ExecuteBlock(s.body, named.st, w, fuel).st, w, fuel - 1);
      }
    }
  }

  lemma {:induction false} NoReturnBlock(ss: seq<Stmt>, st: State, w: World, fuel: nat)
    requires !BlockHasExit(ss)
    ensures !ExecuteBlock(ss, st, w, fuel).out.Returned?
    decreases fuel, ss, 0
  {
    if ss != [] {
      NoReturn(ss[0], st, w, fuel);
      var r := Execute(ss[0], st, w, fuel);
      if r.out.Normal? { NoReturnBlock(ss[1..], r.st, w, fuel); }
    }
  }

  lemma {:induction false} StoreDoesNotReturn(t: Expr, v: Value, st: State, w: World)
    ensures !Store(t, v, st, w).out.Returned?
    decreases t, 1
  {
    hide Evaluate, Next;
    if t.Display? {
      var r := Next(ReachOf(v), st, w);
      if r.Val? { StoresDoNotReturn(t.elts, r.v, r.st, w); }
    }
  }

  lemma {:induction false} StoresDoNotReturn(ts: seq<Expr>, v: Value, st: State, w: World)
    ensures !StoreEach(ts, v, st, w).out.Returned?
    decreases ts, 0
  {
    if ts != [] {
      StoreDoesNotReturn(ts[0], v, st, w);
      StoresDoNotReturn(ts[1..], v, Store(ts[0], v, st, w).st, w);
    }
  }

  lemma {:induction false} RemovesDoNotReturn(ts: seq<Expr>, st: State, w: World)
    ensures !RemoveEach(ts, st, w).out.Returned?
    decreases ts, 0
  {
    if ts != [] {
      RemoveDoesNotReturn(ts[0], st, w);
      RemovesDoNotReturn(ts[1..], Remove(ts[0], st, w).st, w);
    }
  }

  lemma {:induction false} RemoveDoesNotReturn(t: Expr, st: State, w: World)
    ensures !Remove(t, st, w).out.Returned?
    decreases t, 1
  {
    if t.Display? { RemovesDoNotReturn(t.elts, st, w); } else { StoreDoesNotReturn(t, Other, st, w); }
  }
}
