/**
 The fragment of the host language that tools/check_development_workflow.py analyses, with a
 big-step semantics that is deliberately demonic.  Only one object is followed exactly: the list
 that the variable `failures` names.  Everything else is abstracted to whether that list can be
 reached from a value, and whatever can reach it may do anything to it.
 */
module PythonFragment {
  import opened Wrappers

  const FAILURES := "failures"

  // ---------------------------------------------------------------- syntax

  /** Expressions; in a target position the same forms stand for the places assigned to. */
  datatype Expr =
    | Name(id: string)
    | Literal(n: int)
    | Constant(text: string)                                 // any other constant, as it prints
    | Attribute(value: Expr, attr: string)
    | Subscript(value: Expr, index: Expr)
    | Call(func: Expr, args: seq<Expr>, names: seq<string>)  // the last arguments are named by `names`
    | NotEqual(left: Expr, right: Expr)
    | Walrus(target: string, value: Expr)
    | Lambda(body: Expr)
    | Display(elts: seq<Expr>)                               // a tuple, list, set or dictionary
    | Boolean(parts: seq<Expr>)                              // `and`, `or`, `not` and the conditional
    | Format(parts: seq<Expr>)                               // an f-string
    | Operation(parts: seq<Expr>)                            // any other operator

  datatype Handler = Handler(name: Option<string>, body: seq<Stmt>)

  datatype Stmt =
    | Assign(targets: seq<Expr>, value: Expr)
    | AnnAssign(target: Expr, init: Option<Expr>)
    | AugAssign(target: Expr, value: Expr)
    | Delete(targets: seq<Expr>)
    | Do(expr: Expr)
    | If(test: Expr, body: seq<Stmt>, orelse: seq<Stmt>)
    | While(test: Expr, body: seq<Stmt>, orelse: seq<Stmt>)
    | For(target: Expr, iter: Expr, body: seq<Stmt>, orelse: seq<Stmt>)
    | With(context: Expr, bound: Option<Expr>, body: seq<Stmt>)
    | Try(body: seq<Stmt>, handlers: seq<Handler>, orelse: seq<Stmt>, final: seq<Stmt>)
    | Return(result: Option<Expr>)
    | Raise(exc: Option<Expr>)
    | Assert(test: Expr, message: Option<Expr>)
    | Scope(names: seq<string>)                              // a global or nonlocal declaration
    | Def(name: string, body: seq<Stmt>)
    | Class(name: string, body: seq<Stmt>)
    | Import(names: seq<string>)
    | Pass
    | Break
    | Continue

  // ---------------------------------------------------------------- what expressions contain

  /** The expression reads `failures`. */
  predicate Mentions(e: Expr)
    decreases e
  {
    match e
    case Name(id) => id == FAILURES
    case Literal(_) => false
    case Constant(_) => false
    case Attribute(v, _) => Mentions(v)
    case Subscript(v, i) => Mentions(v) || Mentions(i)
    case Call(f, args, _) => Mentions(f) || exists i :: 0 <= i < |args| && Mentions(args[i])
    case NotEqual(a, b) => Mentions(a) || Mentions(b)
    case Walrus(_, v) => Mentions(v)
    case Lambda(b) => Mentions(b)
    case Display(es) => exists i :: 0 <= i < |es| && Mentions(es[i])
    case Boolean(es) => exists i :: 0 <= i < |es| && Mentions(es[i])
    case Format(es) => exists i :: 0 <= i < |es| && Mentions(es[i])
    case Operation(es) => exists i :: 0 <= i < |es| && Mentions(es[i])
  }

  predicate ExitCall(e: Expr) {
    e.Call? &&
    match e.func
    case Name(id) => id == "exit" || id == "quit"
    case Attribute(Name(id), attr) => id == "sys" && attr == "exit"
    case _ => false
  }

  /** A call that is written as an exit, outside lambda bodies. */
  predicate ExitIn(e: Expr)
    decreases e
  {
    match e
    case Name(_) => false
    case Literal(_) => false
    case Constant(_) => false
    case Attribute(v, _) => ExitIn(v)
    case Subscript(v, i) => ExitIn(v) || ExitIn(i)
    case Call(f, args, _) => ExitCall(e) || ExitIn(f) || exists i :: 0 <= i < |args| && ExitIn(args[i])
    case NotEqual(a, b) => ExitIn(a) || ExitIn(b)
    case Walrus(_, v) => ExitIn(v)
    case Lambda(_) => false
    case Display(es) => exists i :: 0 <= i < |es| && ExitIn(es[i])
    case Boolean(es) => exists i :: 0 <= i < |es| && ExitIn(es[i])
    case Format(es) => exists i :: 0 <= i < |es| && ExitIn(es[i])
    case Operation(es) => exists i :: 0 <= i < |es| && ExitIn(es[i])
  }

  predicate AnyMention(es: seq<Expr>) { exists i :: 0 <= i < |es| && Mentions(es[i]) }

  predicate AnyExit(es: seq<Expr>) { exists i :: 0 <= i < |es| && ExitIn(es[i]) }

  function Exprs(e: Option<Expr>): (es: seq<Expr>) { if e.Some? then [e.value] else [] }

  /** The expressions of a statement itself, blocks left out. */
  function Own(s: Stmt): (es: seq<Expr>) {
    match s
    case Assign(ts, v) => ts + [v]
    case AnnAssign(t, v) => [t] + Exprs(v)
    case AugAssign(t, v) => [t, v]
    case Delete(ts) => ts
    case Do(e) => [e]
    case If(t, _, _) => [t]
    case While(t, _, _) => [t]
    case For(t, i, _, _) => [t, i]
    case With(c, b, _) => [c] + Exprs(b)
    case Return(r) => Exprs(r)
    case Raise(e) => Exprs(e)
    case Assert(t, m) => [t] + Exprs(m)
    case _ => []
  }

  /** The statement refers to `failures`, nested scopes included. */
  predicate MentionsStmt(s: Stmt)
    decreases s
  {
    AnyMention(Own(s)) ||
    match s
    case If(_, b, o) => MentionsBlock(b) || MentionsBlock(o)
    case While(_, b, o) => MentionsBlock(b) || MentionsBlock(o)
    case For(_, _, b, o) => MentionsBlock(b) || MentionsBlock(o)
    case With(_, _, b) => MentionsBlock(b)
    case Try(b, h, o, f) =>
      || MentionsBlock(b) || MentionsBlock(o) || MentionsBlock(f)
      || exists i :: 0 <= i < |h| && MentionsBlock(h[i].body)
    case Def(_, b) => MentionsBlock(b)
    case Class(_, b) => MentionsBlock(b)
    case Scope(ns) => FAILURES in ns
    case _ => false
  }

  predicate MentionsBlock(ss: seq<Stmt>)
    decreases ss
  {
    exists i :: 0 <= i < |ss| && MentionsStmt(ss[i])
  }

  // ---------------------------------------------------------------- values and states

  datatype Value =
    | TheList                // the list named by `failures`
    | Tainted                // something else from which that list can be reached
    | Number(n: int)
    | Truth(b: bool)
    | Process(code: int)     // a finished process with its return code
    | Other

  predicate Reaching(v: Value) { v.TheList? || v.Tainted? }

  /**
   One unpredictable step: whether it raises an error, ends the process by raising SystemExit or, when
   `kills`, at once, what it yields, and what it does to variables and list.
   */
  datatype Choice = Choice(raises: bool, exits: bool, kills: bool, truth: bool, result: Value,
                           vars: map<string, Value>, count: nat, pick: nat)

  /**
   What the program runs in.  Any call may end the process, unless its callee is one of the `tame`
   expressions: those only yield a value or raise an error.  Code that runs implicitly, for attributes,
   operators, truth tests, iteration, context managers and imports, may do as much as a call when
   `implicit`.  When it `pries`, code that is handed nothing reaches the variables all the same, by
   inspecting the frame.
   */
  datatype World = World(step: nat -> Choice, tame: set<Expr>, implicit: bool, pries: bool)

  /** `entries` is the length of the list, `leaked` whether something besides the variable may reach it. */
  datatype State = State(vars: map<string, Value>, entries: nat, leaked: bool, tick: nat)

  function Now(st: State, w: World): Choice { w.step(st.tick) }

  function Later(st: State): State { st.(tick := st.tick + 1) }

  /** Anything at all may have happened to variables and list. */
  function Havoc(st: State, c: Choice): (r: State) { State(c.vars, c.count, true, st.tick + 1) }

  /** A step that touches no variable, unless the list has leaked. */
  function Still(st: State, c: Choice): (r: State) { if st.leaked then Havoc(st, c) else Later(st) }

  /** A step that cannot reach the list may rebind other variables, through closures. */
  function Quiet(st: State, c: Choice): (r: State) {
    if st.leaked then Havoc(st, c) else Later(st).(vars := Rebound(st.vars, c.vars))
  }

  /** Variables may get other values that do not reach the list, or be deleted. */
  function Rebound(vars: map<string, Value>, chosen: map<string, Value>): (r: map<string, Value>) {
    (map x | x in chosen && x in vars && x != FAILURES && !Reaching(chosen[x]) :: chosen[x])
    + (if FAILURES in vars then map[FAILURES := vars[FAILURES]] else map[])
  }

  function Untainted(v: Value): Value { if Reaching(v) then Other else v }

  /** Naming a value; a second name for the list, or a name for something reaching it, leaks it. */
  function Bind(x: string, v: Value, st: State): (r: State) {
    st.(vars := st.vars[x := v], leaked := st.leaked || (Reaching(v) && !(x == FAILURES && v.TheList?)))
  }

  datatype Reach = Clean | Direct | Through

  function ReachOf(v: Value): Reach {
    if v.TheList? then Direct else if v.Tainted? then Through else Clean
  }

  function Worse(a: Reach, b: Reach): Reach {
    if a == Through || b == Through then Through else if a == Direct || b == Direct then Direct else Clean
  }

  /** Foreign code ran that was handed nothing that reaches the list. */
  function Aside(st: State, c: Choice, w: World): State { if w.pries then Havoc(st, c) else Quiet(st, c) }

  function Settled(st: State, c: Choice, w: World): State { if w.implicit then Aside(st, c, w) else Still(st, c) }

  /** The effect of using a value: only the list's own code sees the list itself. */
  function Use(r: Reach, st: State, w: World): State {
    if r == Through then Havoc(st, Now(st, w)) else Settled(st, Now(st, w), w)
  }

  predicate Const(e: Expr) { e.Literal? || e.Constant? }

  /** Nothing but constants stands beside one of the operands. */
  predicate Lone(es: seq<Expr>) { forall i, j :: 0 <= i < j < |es| ==> Const(es[i]) || Const(es[j]) }

  /** An operator hands the list to its other operands, unless they are constants. */
  function Handed(r: Reach, es: seq<Expr>): Reach { if r == Direct && !Lone(es) then Through else r }

  // ---------------------------------------------------------------- expressions

  datatype Eval = Val(v: Value, st: State) | Raises(st: State) | Exits(kills: bool, st: State)

  datatype EvalAll = Vals(reach: Reach, st: State) | RaisesAll(st: State) | ExitsAll(kills: bool, st: State)

  /** Implicit code yields a value, raises, or ends the process. */
  function Implicit(v: Value, st': State, c: Choice, w: World): (e: Eval) {
    if w.implicit && c.exits then Exits(c.kills, st') else if c.raises then Raises(st') else Val(v, st')
  }

  /** The outcome of a step that uses values of the given reach. */
  function Outcome(r: Reach, st: State, w: World): (e: Eval) {
    var c := Now(st, w);
    Implicit(if r == Clean then Untainted(c.result) else Tainted, Use(r, st, w), c, w)
  }

  /** The next element of something; those of the list itself do not reach it unless it has leaked. */
  function Next(r: Reach, st: State, w: World): (e: Eval) {
    var c := Now(st, w);
    var v := if r == Clean || (r == Direct && !st.leaked) then Untainted(c.result) else Tainted;
    Implicit(v, Use(r, st, w), c, w)
  }

  function AttributeOf(v: Value, attr: string, st: State, w: World): (e: Eval) {
    if v.Process? && attr == "returncode" then Val(Number(v.code), st) else Outcome(ReachOf(v), st, w)
  }

  /** The variable or module that a callee starts from. */
  function Root(f: Expr): (x: Option<string>)
    decreases f
  {
    match f
    case Name(id) => Some(id)
    case Attribute(v, _) => Root(v)
    case _ => None
  }

  /** The program has bound the name that the callee starts from, other than to a finished process. */
  predicate Shadowed(f: Expr, st: State) {
    Root(f).Some? && Root(f).value in st.vars && !st.vars[Root(f).value].Process?
  }

  predicate TameCall(f: Expr, st: State, w: World) { f in w.tame && !Shadowed(f, st) }

  /** Calling something that does not append to the list. */
  function Invoke(tame: bool, r: Reach, st: State, w: World): (e: Eval) {
    var c := Now(st, w);
    if tame && r == Clean then (if c.raises then Raises(Still(st, c)) else Val(Untainted(c.result), Still(st, c)))
    else
      var st' := if r == Clean then Aside(st, c, w) else Havoc(st, c);
      if c.exits then Exits(c.kills, st')
      else if c.raises then Raises(st')
      else Val(if r == Clean && !w.pries then Untainted(c.result) else c.result, st')
  }

  /** The truth of a value; once the list has leaked it may change at any time. */
  function Tested(v: Value, st: State, w: World): (e: Eval)
    ensures e.Val? ==> e.v.Truth?
  {
    var c := Now(st, w);
    match v
    case TheList => Val(Truth(if st.leaked then c.truth else st.entries > 0), Later(st))
    case Number(n) => Val(Truth(n != 0), Later(st))
    case Truth(b) => Val(Truth(b), Later(st))
    case _ => Implicit(Truth(c.truth), Settled(st, c, w), c, w)
  }

  /** The value of a boolean operator is one of its operands. */
  function Picked(r: Reach, st: State, w: World): (e: Eval) {
    var c := Now(st, w);
    var v := if r == Through then Tainted
             else if r == Direct && c.pick > 0 then TheList
             else Untainted(c.result);
    Implicit(v, Settled(st, c, w), c, w)
  }

  /** A new container of values. */
  function Collected(r: Reach, st: State, w: World): (e: Eval) {
    var c := Now(st, w);
    Implicit(if r == Clean then Other else Tainted, Settled(st, c, w), c, w)
  }

  function Append(r: Reach, st: State, w: World): (e: Eval) {
    if Now(st, w).raises then Raises(Later(st))
    else Val(Other, Later(st).(entries := st.entries + 1, leaked := st.leaked || r != Clean))
  }

  predicate AppendsTo(f: Expr, st: State) {
    f.Attribute? && f.attr == "append" && f.value.Name? && f.value.id in st.vars && st.vars[f.value.id].TheList?
  }

  function Evaluate(e: Expr, st: State, w: World): (r: Eval)
    decreases e, 1
  {
    match e
    case Name(id) =>
      if id in st.vars then Val(st.vars[id], st)
      else if Now(st, w).raises then Raises(Later(st))
      else Val(Untainted(Now(st, w).result), Later(st))
    case Literal(n) => Val(Number(n), st)
    case Constant(_) => Val(Other, st)
    case Attribute(v, attr) =>
      var r := Evaluate(v, st, w);
      if !r.Val? then r else AttributeOf(r.v, attr, r.st, w)
    case Subscript(v, i) =>
      var r := Evaluate(v, st, w);
      if !r.Val? then r else
      var ri := Evaluate(i, r.st, w);
      if !ri.Val? then ri
      else if ReachOf(ri.v) != Clean then Outcome(Through, ri.st, w)
      else Next(ReachOf(r.v), ri.st, w)
    case Call(f, args, _) =>
      var appends := AppendsTo(f, st);
      var rf := if appends then Val(Other, st) else Evaluate(f, st, w);
      if !rf.Val? then rf else
      var ra := EvaluateAll(args, rf.st, w);
      if !ra.Vals? then Aborted(ra)
      else if appends then Append(ra.reach, ra.st, w)
      else Invoke(TameCall(f, st, w), Worse(ReachOf(rf.v), ra.reach), ra.st, w)
    case NotEqual(a, b) =>
      var ra := Evaluate(a, st, w);
      if !ra.Val? then ra else
      var rb := Evaluate(b, ra.st, w);
      if !rb.Val? then rb
      else if ra.v.Number? && rb.v.Number? then Val(Truth(ra.v.n != rb.v.n), rb.st)
      else Outcome(Handed(Worse(ReachOf(ra.v), ReachOf(rb.v)), [a, b]), rb.st, w)
    case Walrus(x, v) =>
      var r := Evaluate(v, st, w);
      if !r.Val? then r else Val(r.v, Bind(x, r.v, r.st))
    case Lambda(b) => Val(if Mentions(b) then Tainted else Other, st)
    case Display(es) =>
      var r := EvaluateAll(es, st, w);
      if !r.Vals? then Aborted(r) else Collected(r.reach, r.st, w)
    case Boolean(es) =>
      var r := EvaluateSome(es, st, w);
      if !r.Vals? then Aborted(r) else Picked(r.reach, r.st, w)
    case Format(es) =>
      var r := EvaluateAll(es, st, w);
      if !r.Vals? then Aborted(r) else Outcome(if r.reach == Through then Through else Clean, r.st, w)
    case Operation(es) =>
      var r := EvaluateSome(es, st, w);
      if !r.Vals? then Aborted(r) else Outcome(Handed(r.reach, es), r.st, w)
  }

  function Aborted(r: EvalAll): (e: Eval)
    requires !r.Vals?
  {
    match r
    case RaisesAll(st) => Raises(st)
    case ExitsAll(kills, st) => Exits(kills, st)
  }

  function EvaluateAll(es: seq<Expr>, st: State, w: World): (r: EvalAll)
    decreases es, 0
  {
    if es == [] then Vals(Clean, st)
    else
      match Evaluate(es[0], st, w)
      case Raises(st') => RaisesAll(st')
      case Exits(kills, st') => ExitsAll(kills, st')
      case Val(v, st') =>
        match EvaluateAll(es[1..], st', w)
        case Vals(r, st'') => Vals(Worse(ReachOf(v), r), st'')
        case other => other
  }

  /** Operands of which any may be passed over, as short-circuit forms do. */
  function EvaluateSome(es: seq<Expr>, st: State, w: World): (r: EvalAll)
    decreases es, 0
  {
    if es == [] then Vals(Clean, st)
    else if Now(st, w).truth then EvaluateSome(es[1..], Later(st), w)
    else
      match Evaluate(es[0], Later(st), w)
      case Raises(st') => RaisesAll(st')
      case Exits(kills, st') => ExitsAll(kills, st')
      case Val(v, st') =>
        match EvaluateSome(es[1..], st', w)
        case Vals(r, st'') => Vals(Worse(ReachOf(v), r), st'')
        case other => other
  }

  // ---------------------------------------------------------------- statements

  /** `Exited` is a SystemExit on its way out, or with `kills` a process that is gone. */
  datatype Out = Normal | Returned(v: Value) | Raised | Exited(kills: bool) | Broke | Continued | Timeout

  datatype Run = Run(out: Out, st: State)

  function Lift(e: Eval): (r: Run) {
    match e
    case Val(_, st) => Run(Normal, st)
    case Raises(st) => Run(Raised, st)
    case Exits(kills, st) => Run(Exited(kills), st)
  }

  /** Storing into, or deleting from, an object; `handed` is what the index and the stored value reach. */
  function Mutate(owner: Value, handed: Reach, st: State, w: World): (r: Run) {
    var c := Now(st, w);
    var st' := if owner.TheList? then Later(st).(entries := c.count, leaked := st.leaked || handed != Clean)
               else if owner.Tainted? || handed != Clean then Havoc(st, c)
               else Settled(st, c, w);
    Lift(Implicit(Other, st', c, w))
  }

  function Store(target: Expr, v: Value, st: State, w: World): (r: Run)
    decreases target, 1
  {
    match target
    case Name(x) => Run(Normal, Bind(x, v, st))
    case Display(ts) =>
      var r := Next(ReachOf(v), st, w);
      if !r.Val? then Lift(r) else StoreEach(ts, r.v, r.st, w)
    case Attribute(owner, _) =>
      var r := Evaluate(owner, st, w);
      if !r.Val? then Lift(r) else Mutate(r.v, ReachOf(v), r.st, w)
    case Subscript(owner, i) =>
      var r := Evaluate(owner, st, w);
      if !r.Val? then Lift(r) else
      var ri := Evaluate(i, r.st, w);
      if !ri.Val? then Lift(ri) else Mutate(r.v, Worse(ReachOf(ri.v), ReachOf(v)), ri.st, w)
    case _ => Run(Raised, st)
  }

  function StoreEach(targets: seq<Expr>, v: Value, st: State, w: World): (r: Run)
    decreases targets, 0
  {
    if targets == [] then Run(Normal, st)
    else
      var r := Store(targets[0], v, st, w);
      if r.out.Normal? then StoreEach(targets[1..], v, r.st, w) else r
  }

  function Remove(target: Expr, st: State, w: World): (r: Run)
    decreases target, 1
  {
    match target
    case Name(x) => Run(Normal, st.(vars := st.vars - {x}))
    case Display(ts) => RemoveEach(ts, st, w)
    case _ => Store(target, Other, st, w)
  }

  function RemoveEach(targets: seq<Expr>, st: State, w: World): (r: Run)
    decreases targets, 0
  {
    if targets == [] then Run(Normal, st)
    else
      var r := Remove(targets[0], st, w);
      if r.out.Normal? then RemoveEach(targets[1..], r.st, w) else r
  }

  /** `target op= value`; on the list itself this changes the list in place. */
  function Augment(target: Expr, v: Value, st: State, w: World): (r: Run) {
    if target.Name? then
      var before := if target.id in st.vars then st.vars[target.id] else Other;
      if before.TheList? then Mutate(TheList, ReachOf(v), st, w)
      else
        var r := Outcome(if Reaching(before) || Reaching(v) then Through else Clean, st, w);
        if !r.Val? then Lift(r) else Run(Normal, Bind(target.id, r.v, r.st))
    else Store(target, v, st, w)
  }

  /** `failures: list[str] = []` makes a new list that only the variable names. */
  predicate FreshList(s: Stmt) {
    s == AnnAssign(Name(FAILURES), Some(Display([])))
  }

  function Execute(s: Stmt, st: State, w: World, fuel: nat): (r: Run)
    decreases fuel, s, 1
  {
    match s
    case Assign(targets, value) =>
      var r := Evaluate(value, st, w);
      if !r.Val? then Lift(r) else StoreEach(targets, r.v, r.st, w)
    case AnnAssign(target, init) =>
      if FreshList(s) then Run(Normal, st.(vars := st.vars[FAILURES := TheList], entries := 0))
      else if init.None? then Run(Normal, st)
      else
        var r := Evaluate(init.value, st, w);
        if !r.Val? then Lift(r) else Store(target, r.v, r.st, w)
    case AugAssign(target, value) =>
      var r := Evaluate(value, st, w);
      if !r.Val? then Lift(r) else Augment(target, r.v, r.st, w)
    case Delete(targets) => RemoveEach(targets, st, w)
    case Do(e) => Lift(Evaluate(e, st, w))
    case If(test, body, orelse) =>
      var r := Evaluate(test, st, w);
      if !r.Val? then Lift(r) else
      var t := Tested(r.v, r.st, w);
      if !t.Val? then Lift(t) else ExecuteBlock(if t.v.b then body else orelse, t.st, w, fuel)
    case While(test, body, orelse) =>
      if fuel == 0 then Run(Timeout, st) else
      var r := Evaluate(test, st, w);
      if !r.Val? then Lift(r) else
      var t := Tested(r.v, r.st, w);
      if !t.Val? then Lift(t)
      else if !t.v.b then ExecuteBlock(orelse, t.st, w, fuel)
      else
        var b := ExecuteBlock(body, t.st, w, fuel);
        if b.out.Normal? || b.out.Continued? then Execute(s, b.st, w, fuel - 1)
        else if b.out.Broke? then Run(Normal, b.st) else b
    case For(target, iter, body, orelse) =>
      var r := Evaluate(iter, st, w);
      if !r.Val? then Lift(r) else Iterate(s, ReachOf(r.v), r.st, w, fuel)
    case With(context, bound, body) =>
      var r := Evaluate(context, st, w);
      if !r.Val? then Lift(r) else
      var entered := Outcome(ReachOf(r.v), r.st, w);
      if !entered.Val? then Lift(entered) else
      var named := if bound.Some? then Store(bound.value, entered.v, entered.st, w) else Run(Normal, entered.st);
      if !named.out.Normal? then named else
      Leave(ReachOf(r.v), ExecuteBlock(body, named.st, w, fuel), w)
    case Try(body, _, _, final) =>
      var handled := Handled(s, ExecuteBlock(body, st, w, fuel), w, fuel);
      if Gone(handled.out) then handled else
      var f := ExecuteBlock(final, handled.st, w, fuel);
      if f.out.Normal? then Run(handled.out, f.st) else f
    case Return(result) =>
      if result.None? then Run(Returned(Other), st)
      else
        var r := Evaluate(result.value, st, w);
        if !r.Val? then Lift(r) else Run(Returned(r.v), r.st)
    case Raise(exc) =>
      var r := if exc.Some? then Evaluate(exc.value, st, w) else Val(Other, st);
      if !r.Val? then Lift(r) else Run(if Now(r.st, w).exits then Exited(false) else Raised, Later(Carried(r.v, r.st)))
    case Assert(test, message) =>
      var r := Evaluate(test, st, w);
      if !r.Val? then Lift(r) else
      var t := Tested(r.v, r.st, w);
      if !t.Val? then Lift(t)
      else if t.v.b then Run(Normal, t.st)
      else if message.None? then Run(Raised, t.st)
      else
        var m := Evaluate(message.value, t.st, w);
        if !m.Val? then Lift(m) else Run(Raised, Carried(m.v, m.st))
    case Scope(names) => Run(Normal, st.(leaked := st.leaked || FAILURES in names))
    case Def(name, body) => Run(Normal, Bind(name, if MentionsBlock(body) then Tainted else Other, st))
    case Class(name, body) =>
      var r := Invoke(false, if MentionsBlock(body) then Through else Clean, st, w);
      if !r.Val? then Lift(r) else Run(Normal, Bind(name, r.v, r.st))
    case Import(names) =>
      var r := Outcome(Clean, st, w);
      if !r.Val? then Lift(r) else Run(Normal, BindAll(names, r.st))
    case Pass => Run(Normal, st)
    case Break => Run(Broke, st)
    case Continue => Run(Continued, st)
  }

  /** An exception holds the value, and a handler can take it out. */
  function Carried(v: Value, st: State): State { st.(leaked := st.leaked || Reaching(v)) }

  /** An exception that a handler may catch. */
  predicate Thrown(out: Out) { out.Raised? || out == Exited(false) }

  /** Nothing runs any more. */
  predicate Gone(out: Out) { out.Timeout? || out == Exited(true) }

  function Named(name: Option<string>, st: State): State {
    if name.Some? then Bind(name.value, Other, st) else st
  }

  function BindAll(names: seq<string>, st: State): (r: State) {
    if names == [] then st else BindAll(names[1..], Bind(names[0], Other, st))
  }

  /** What follows the body of a try statement: its else block, a handler that catches, or nothing. */
  function Handled(s: Stmt, b: Run, w: World, fuel: nat): (r: Run)
    requires s.Try?
    decreases fuel, s, 0
  {
    var k := Now(b.st, w).pick;
    if b.out.Normal? then ExecuteBlock(s.orelse, b.st, w, fuel)
    else if Thrown(b.out) && k < |s.handlers| then
      ExecuteBlock(s.handlers[k].body, Named(s.handlers[k].name, Later(b.st)), w, fuel)
    else b
  }

  /** The rounds of a for loop, as many as the iterator gives. */
  function Iterate(s: Stmt, reach: Reach, st: State, w: World, fuel: nat): (r: Run)
    requires s.For?
    decreases fuel, s, 0
  {
    if fuel == 0 then Run(Timeout, st) else
    var next := Next(reach, st, w);
    if !next.Val? then Lift(next)
    else if !Now(next.st, w).truth then ExecuteBlock(s.orelse, Later(next.st), w, fuel)
    else
      var named := Store(s.target, next.v, Later(next.st), w);
      if !named.out.Normal? then named else
      var b := ExecuteBlock(s.body, named.st, w, fuel);
      if b.out.Normal? || b.out.Continued? then Iterate(s, reach, b.st, w, fuel - 1)
      else if b.out.Broke? then Run(Normal, b.st) else b
  }

  /** Leaving a context manager, which may swallow an exception or raise one. */
  function Leave(reach: Reach, b: Run, w: World): (r: Run) {
    if Gone(b.out) then b else
    var left := Outcome(reach, b.st, w);
    if !left.Val? then Lift(left)
    else if Thrown(b.out) && Now(b.st, w).truth then Run(Normal, left.st)
    else Run(b.out, left.st)
  }

  function ExecuteBlock(ss: seq<Stmt>, st: State, w: World, fuel: nat): (r: Run)
    decreases fuel, ss, 0
  {
    if ss == [] then Run(Normal, st)
    else
      var r := Execute(ss[0], st, w, fuel);
      if r.out.Normal? then ExecuteBlock(ss[1..], r.st, w, fuel) else r
  }
}
