/**
 The static analysis of tools/check_development_workflow.py that decides whether the repository
 checker still runs the canonical hook and still turns its failure into exit status 1.
 */
module HookAnalyser {
  import opened Wrappers
  import opened PythonFragment

  // ---------------------------------------------------------------- exits in executable control flow

  /** An exit that executing the statement itself may reach; nested scopes are not entered. */
  predicate HasExit(s: Stmt)
    decreases s
  {
    AnyExit(Own(s)) ||
    match s
    case Return(_) => true
    case Raise(_) => true
    case If(_, b, o) => BlockHasExit(b) || BlockHasExit(o)
    case While(_, b, o) => BlockHasExit(b) || BlockHasExit(o)
    case For(_, _, b, o) => BlockHasExit(b) || BlockHasExit(o)
    case With(_, _, b) => BlockHasExit(b)
    case Try(b, h, o, f) =>
      || BlockHasExit(b) || BlockHasExit(o) || BlockHasExit(f)
      || exists i :: 0 <= i < |h| && BlockHasExit(h[i].body)
    case _ => false
  }

  predicate BlockHasExit(ss: seq<Stmt>)
    decreases ss
  {
    exists i :: 0 <= i < |ss| && HasExit(ss[i])
  }

  /** The visitor: it keeps what it found while it walks. */
  class ExitVisitor {
    var found: bool

    constructor ()
      ensures !found
    {
      found := false;
    }

    method VisitExpr(e: Expr)
      modifies this
      ensures found == (old(found) || ExitIn(e))
      decreases e, 1
    {
      match e {
        case Attribute(v, _) => VisitExpr(v);
        case Subscript(v, i) =>
          VisitExpr(v);
          VisitExpr(i);
        case Call(f, args, _) =>
          if ExitCall(e) {
            found := true;
            return;
          }
          VisitExpr(f);
          VisitExprs(args);
        case NotEqual(a, b) =>
          VisitExpr(a);
          VisitExpr(b);
        case Walrus(_, v) => VisitExpr(v);
        case Lambda(_) =>
        case Display(es) => VisitExprs(es);
        case Boolean(es) => VisitExprs(es);
        case Format(es) => VisitExprs(es);
        case Operation(es) => VisitExprs(es);
        case _ =>
      }
    }

    method VisitExprs(es: seq<Expr>)
      modifies this
      ensures found == (old(found) || AnyExit(es))
      decreases es, 0
    {
      for i := 0 to |es|
        invariant found == (old(found) || exists k :: 0 <= k < i && ExitIn(es[k]))
      {
        VisitExpr(es[i]);
      }
    }

    method VisitBlock(ss: seq<Stmt>)
      modifies this
      ensures found == (old(found) || BlockHasExit(ss))
      decreases ss, 0
    {
      for i := 0 to |ss|
        invariant found == (old(found) || exists k :: 0 <= k < i && HasExit(ss[k]))
      {
        VisitStmt(ss[i]);
      }
    }

    method VisitStmt(s: Stmt)
      modifies this
      ensures found == (old(found) || HasExit(s))
      decreases s, 1
    {
      match s {
        case Return(_) => found := true;
        case Raise(_) => found := true;
        case Def(_, _) =>
        case Class(_, _) =>
        case If(_, b, o) =>
          VisitOwn(s);
          VisitBlock(b);
          VisitBlock(o);
        case While(_, b, o) =>
          VisitOwn(s);
          VisitBlock(b);
          VisitBlock(o);
        case For(_, _, b, o) =>
          VisitOwn(s);
          VisitBlock(b);
          VisitBlock(o);
        case With(_, _, b) =>
          VisitOwn(s);
          VisitBlock(b);
        case Try(b, h, o, f) =>
          VisitBlock(b);
          for i := 0 to |h|
            invariant found == (old(found) || BlockHasExit(b) || exists k :: 0 <= k < i && BlockHasExit(h[k].body))
          {
            VisitBlock(h[i].body);
          }
          VisitBlock(o);
          VisitBlock(f);
        case _ => VisitOwn(s);
      }
    }

    method VisitOwn(s: Stmt)
      modifies this
      ensures found == (old(found) || AnyExit(Own(s)))
      decreases s, 0
    {
      var es := Own(s);
      for i := 0 to |es|
        invariant found == (old(found) || exists k :: 0 <= k < i && ExitIn(es[k]))
      {
        VisitExpr(es[i]);
      }
    }
  }

  // ---------------------------------------------------------------- what clobbers the list

  predicate TargetReferences(target: Expr)
    decreases target
  {
    match target
    case Name(id) => id == FAILURES
    case Display(ts) => exists i :: 0 <= i < |ts| && TargetReferences(ts[i])
    case Attribute(v, _) => v == Name(FAILURES)
    case Subscript(v, _) => v == Name(FAILURES)
    case _ => false
  }

  /** A named expression or a call inside the expression may change or pass on the list. */
  predicate ClobberIn(e: Expr)
    decreases e
  {
    match e
    case Name(_) => false
    case Literal(_) => false
    case Constant(_) => false
    case Attribute(v, _) => ClobberIn(v)
    case Subscript(v, i) => ClobberIn(v) || ClobberIn(i)
    case Call(f, args, _) =>
      || (f.Attribute? && f.value == Name(FAILURES) && f.attr != "append")
      || AnyMention(args)
      || ClobberIn(f)
      || exists i :: 0 <= i < |args| && ClobberIn(args[i])
    case NotEqual(a, b) => ClobberIn(a) || ClobberIn(b)
    case Walrus(x, v) => x == FAILURES || Mentions(v) || ClobberIn(v)
    case Lambda(b) => ClobberIn(b)
    case Display(es) => exists i :: 0 <= i < |es| && ClobberIn(es[i])
    case Boolean(es) => exists i :: 0 <= i < |es| && ClobberIn(es[i])
    case Format(es) => exists i :: 0 <= i < |es| && ClobberIn(es[i])
    case Operation(es) => exists i :: 0 <= i < |es| && ClobberIn(es[i])
  }

  predicate AnyTarget(targets: seq<Expr>) { exists i :: 0 <= i < |targets| && TargetReferences(targets[i]) }

  predicate AnyClobber(es: seq<Expr>) { exists i :: 0 <= i < |es| && ClobberIn(es[i]) }

  predicate Clobbers(s: Stmt)
    decreases s
  {
    AnyClobber(Own(s)) ||
    match s
    case Assign(ts, v) => AnyTarget(ts) || Mentions(v)
    case AnnAssign(t, v) => TargetReferences(t) || (v.Some? && Mentions(v.value))
    case AugAssign(t, v) => TargetReferences(t) || Mentions(v)
    case Delete(ts) => AnyTarget(ts)
    case If(_, b, o) => BlockClobbers(b) || BlockClobbers(o)
    case While(_, b, o) => BlockClobbers(b) || BlockClobbers(o)
    case For(_, _, b, o) => BlockClobbers(b) || BlockClobbers(o)
    case With(_, _, b) => BlockClobbers(b)
    case Try(b, h, o, f) =>
      || BlockClobbers(b) || BlockClobbers(o) || BlockClobbers(f)
      || exists i :: 0 <= i < |h| && BlockClobbers(h[i].body)
    case Def(_, b) => BlockClobbers(b)
    case Class(_, b) => BlockClobbers(b)
    case _ => false
  }

  predicate BlockClobbers(ss: seq<Stmt>)
    decreases ss
  {
    exists i :: 0 <= i < |ss| && Clobbers(ss[i])
  }

  // ---------------------------------------------------------------- the canonical statements

  const HOOK_CALL := Assign([Name("development_result")],
    Call(Attribute(Name("subprocess"), "run"),
         [Display([Attribute(Name("sys"), "executable"),
                   Call(Name("str"), [Operation([Name("ROOT"), Constant("tools/check_development_workflow.py")])], []),
                   Call(Name("str"), [Name("ROOT")], [])]),
          Constant("False"), Constant("True"), Constant("True")],
         ["check", "capture_output", "text"]))

  const HOOK_TEST := NotEqual(Attribute(Name("development_result"), "returncode"), Literal(0))

  const HOOK_DETAILS := Assign([Name("details")],
    Boolean([Call(Attribute(Attribute(Name("development_result"), "stderr"), "strip"), [], []),
             Call(Attribute(Attribute(Name("development_result"), "stdout"), "strip"), [], [])]))

  const HOOK_APPEND := Do(Call(Attribute(Name(FAILURES), "append"),
    [Format([Constant("development workflow alignment failed: "), Name("details")])], []))

  const HOOK := [HOOK_CALL, If(HOOK_TEST, [HOOK_DETAILS, HOOK_APPEND], [])]

  const REPORT := Do(Call(Name("print"),
    [Format([Constant("ERROR: "), Name("failure")]), Attribute(Name("sys"), "stderr")], ["file"]))

  const REPORT_ALL := For(Name("failure"), Name(FAILURES), [REPORT], [])

  const PASSED := Do(Call(Name("print"), [Constant("repository checks passed")], []))

  const EPILOGUE := [If(Name(FAILURES), [REPORT_ALL, Return(Some(Literal(1)))], []), PASSED, Return(Some(Literal(0)))]

  // ---------------------------------------------------------------- the search for the hook

  /** The hook stands at `index`, nothing before or after it exits and nothing after it clobbers the list. */
  predicate ConnectedAt(body: seq<Stmt>, index: nat) {
    && index + |HOOK| + |EPILOGUE| <= |body|
    && body[|body| - |EPILOGUE|..] == EPILOGUE
    && body[index..index + |HOOK|] == HOOK
    && !BlockHasExit(body[..index])
    && !BlockHasExit(body[index + |HOOK|..|body| - |EPILOGUE|])
    && !BlockClobbers(body[index + |HOOK|..|body| - |EPILOGUE|])
  }

  datatype TopLevel = Function(name: string, body: seq<Stmt>) | Entry | Statement(s: Stmt)

  function Mains(items: seq<TopLevel>): (r: seq<seq<Stmt>>) {
    if items == [] then []
    else (if items[0].Function? && items[0].name == "main" then [items[0].body] else []) + Mains(items[1..])
  }

  ghost predicate Connected(items: seq<TopLevel>) {
    && items != [] && items[|items| - 1] == Entry
    && |Mains(items)| == 1
    && exists index :: ConnectedAt(Mains(items)[0], index)
  }

  method ContainsExit(statement: Stmt) returns (found: bool)
    ensures found == HasExit(statement)
  {
    var visitor := new ExitVisitor();
    visitor.VisitStmt(statement);
    found := visitor.found;
  }

  method AnyContainsExit(statements: seq<Stmt>) returns (found: bool)
    ensures found == BlockHasExit(statements)
  {
    for i := 0 to |statements|
      invariant forall k :: 0 <= k < i ==> !HasExit(statements[k])
    {
      found := ContainsExit(statements[i]);
      if found { return; }
    }
    found := false;
  }

  method HookConnected(items: seq<TopLevel>) returns (connected: bool)
    ensures connected <==> Connected(items)
  {
    hide BlockClobbers, BlockHasExit, Mains;
    var mains := Mains(items);
    if |mains| != 1 || items == [] || items[|items| - 1] != Entry {
      return false;
    }
    var body := mains[0];
    if |body| < |HOOK| + |EPILOGUE| {
      return false;
    }
    var epilogueIndex := |body| - |EPILOGUE|;
    if body[epilogueIndex..] != EPILOGUE {
      return false;
    }
    for index := 0 to epilogueIndex - 1
      invariant forall k :: 0 <= k < index ==> !ConnectedAt(body, k)
    {
      if body[index..index + |HOOK|] != HOOK { continue; }
      var exitsBefore := AnyContainsExit(body[..index]);
      if exitsBefore { continue; }
      var remainder := body[index + |HOOK|..epilogueIndex];
      var exitsAfter := AnyContainsExit(remainder);
      if exitsAfter { continue; }
      if BlockClobbers(remainder) { continue; }
      assert ConnectedAt(body, index);
      return true;
    }
    connected := false;
  }
}
