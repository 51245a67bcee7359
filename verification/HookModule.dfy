/**
 From the accepted module to the status of its process.  The analysis looks at the last statement, which
 is the canonical entry, and at the only function called `main`; whether the entry calls that function
 depends on what the rest of the module does to three names.
 */
module HookModule {
  import opened Wrappers
  import opened PythonFragment
  import opened HookAnalyser
  import opened HookSoundness
  import opened HookTheorem

  /** The names that the entry reads. */
  const ENTRY_NAMES := {"main", "__name__", "SystemExit"}

  // ---------------------------------------------------------------- which names an item may rebind

  /** Some function in the statement declares the name as global. */
  predicate Declares(s: Stmt, x: string)
    decreases s
  {
    match s
    case If(_, b, o) => DeclaresBlock(b, x) || DeclaresBlock(o, x)
    case While(_, b, o) => DeclaresBlock(b, x) || DeclaresBlock(o, x)
    case For(_, _, b, o) => DeclaresBlock(b, x) || DeclaresBlock(o, x)
    case With(_, _, b) => DeclaresBlock(b, x)
    case Try(b, h, o, f) =>
      || DeclaresBlock(b, x) || DeclaresBlock(o, x) || DeclaresBlock(f, x)
      || exists i :: 0 <= i < |h| && DeclaresBlock(h[i].body, x)
    case Def(_, b) => DeclaresBlock(b, x)
    case Class(_, b) => DeclaresBlock(b, x)
    case Scope(ns) => x in ns
    case _ => false
  }

  predicate DeclaresBlock(ss: seq<Stmt>, x: string)
    decreases ss
  {
    exists i :: 0 <= i < |ss| && Declares(ss[i], x)
  }

  /** Running a statement of the module may call a function that assigns to the global name. */
  predicate Declared(items: seq<TopLevel>, x: string) {
    exists i :: 0 <= i < |items| &&
      match items[i]
      case Function(_, body) => DeclaresBlock(body, x)
      case Statement(s) => Declares(s, x)
      case Entry => false
  }

  predicate MainDef(item: TopLevel) { item.Function? && item.name == "main" }

  /** The item may give the name another meaning. */
  predicate MayTouch(items: seq<TopLevel>, i: nat, x: string)
    requires i < |items|
  {
    match items[i]
    case Function(name, _) => name == x && x != "main"
    case Statement(s) => !Spares(s, {x}) || Declared(items, x)
    case Entry => false
  }

  // ---------------------------------------------------------------- running the module

  /** What running one statement of the module does: it ends the process, or rebinds names it may rebind. */
  datatype Event = Event(ends: Option<int>, touches: set<string>)

  type Course = nat -> Event

  /** Which names of the entry have lost their meaning before item `k`, if the run gets there. */
  function Reached(items: seq<TopLevel>, k: nat, course: Course): (r: Option<set<string>>)
    requires k <= |items|
  {
    if k == 0 then Some({"main"})
    else
      match Reached(items, k - 1, course)
      case None => None
      case Some(lost) =>
        if MainDef(items[k - 1]) then Some(lost - {"main"})
        else if items[k - 1].Statement? && course(k - 1).ends.Some? then None
        else Some(lost + set x | x in ENTRY_NAMES && MayTouch(items, k - 1, x) && Does(items[k - 1], course(k - 1), x))
  }

  /** A definition always binds its name; a statement binds what the run has it bind. */
  predicate Does(item: TopLevel, event: Event, x: string) { item.Function? || x in event.touches }

  /** `raise SystemExit(main())`: the status of the process, when `main` ends it. */
  function StatusOf(out: Out, event: Event): (status: Option<int>) {
    match out
    case Returned(Number(n)) => Some(n)
    case Raised => Some(1)
    case Timeout => None
    case _ => event.ends
  }

  /** The status that the entry gives; with another meaning of its names it may do anything. */
  function EntryStatus(items: seq<TopLevel>, lost: set<string>, course: Course, w: World, fuel: nat): (r: Option<int>)
    requires items != [] && |Mains(items)| == 1
  {
    var event := course(|items| - 1);
    if lost != {} then event.ends else StatusOf(ExecuteBlock(Mains(items)[0], START, w, fuel).out, event)
  }

  // ---------------------------------------------------------------- when the entry calls this main

  /** Only what stands before the definition of `main` may rebind that name, and nothing rebinds the others. */
  predicate Undisturbing(items: seq<TopLevel>) {
    forall i, x :: 0 <= i < |items| - 1 && x in ENTRY_NAMES && MayTouch(items, i, x) ==>
      x == "main" && exists m :: i < m < |items| - 1 && MainDef(items[m])
  }

  /** `main` is not defined by an item from `i` up to `k`. */
  predicate NoMain(items: seq<TopLevel>, i: nat, k: nat)
    requires k <= |items|
  {
    forall m :: i <= m < k ==> !MainDef(items[m])
  }

  /** The names lost before item `k`, over all runs. */
  ghost predicate Losable(items: seq<TopLevel>, k: nat, x: string)
    requires k <= |items|
  {
    || (x == "main" && NoMain(items, 0, k))
    || exists i :: 0 <= i < k && MayTouch(items, i, x) && (x == "main" ==> NoMain(items, i + 1, k))
  }

  /** Every statement rebinds what it may. */
  function Hostile(): Course { _ => Event(None, ENTRY_NAMES) }

  lemma {:induction false} LostIsLosable(items: seq<TopLevel>, k: nat, course: Course)
    requires k <= |items| && Reached(items, k, course).Some?
    ensures forall x :: x in Reached(items, k, course).value ==> x in ENTRY_NAMES && Losable(items, k, x)
    decreases k
  {
    hide MayTouch;
    if k > 0 {
      LostIsLosable(items, k - 1, course);
      forall x | x in Reached(items, k, course).value ensures x in ENTRY_NAMES && Losable(items, k, x) {
        if x in Reached(items, k - 1, course).value && !(x == "main" && MainDef(items[k - 1])) {
          LosableLater(items, k, x);
        }
      }
    }
  }

  lemma LosableLater(items: seq<TopLevel>, k: nat, x: string)
    requires 0 < k <= |items| && Losable(items, k - 1, x) && !(x == "main" && MainDef(items[k - 1]))
    ensures Losable(items, k, x)
  {
    hide MayTouch;
    if i :| 0 <= i < k - 1 && MayTouch(items, i, x) && (x == "main" ==> NoMain(items, i + 1, k - 1)) {
      assert x == "main" ==> NoMain(items, i + 1, k);
    }
  }

  lemma {:induction false} LosableIsLost(items: seq<TopLevel>, k: nat)
    requires k <= |items|
    ensures Reached(items, k, Hostile()).Some?
    ensures forall x <- ENTRY_NAMES :: Losable(items, k, x) ==> x in Reached(items, k, Hostile()).value
    decreases k
  {
    hide MayTouch;
    if k > 0 {
      LosableIsLost(items, k - 1);
      forall x | x in ENTRY_NAMES && Losable(items, k, x) ensures x in Reached(items, k, Hostile()).value {
        NewlyLost(items, k, x);
      }
    }
  }

  lemma NewlyLost(items: seq<TopLevel>, k: nat, x: string)
    requires 0 < k <= |items| && Losable(items, k, x)
    ensures x == "main" ==> !MainDef(items[k - 1])
    ensures Losable(items, k - 1, x) || MayTouch(items, k - 1, x)
    ensures MayTouch(items, k - 1, x) ==> !MainDef(items[k - 1])
  {
    hide Spares, Declared;
  }

  /** If the run gets to the entry, the names of the entry mean what they should. */
  predicate EntryMeant(items: seq<TopLevel>, course: Course)
    requires items != []
  {
    var lost := Reached(items, |items| - 1, course);
    lost.Some? ==> lost.value == {}
  }

  /**
   For every module that ends with the canonical entry and has one `main`: in every run that gets to the
   entry its names mean what they should exactly when no item may rebind them in between.
   */
  lemma EntryExactly(items: seq<TopLevel>)
    requires items != [] && items[|items| - 1] == Entry && |Mains(items)| == 1
    ensures Undisturbing(items) <==> forall course :: EntryMeant(items, course)
  {
    hide Reached, MayTouch, MainDef;
    var n := |items| - 1;
    OneMain(items);
    if Undisturbing(items) {
      forall course ensures EntryMeant(items, course) {
        if Reached(items, n, course).Some? {
          LostIsLosable(items, n, course);
          forall x <- ENTRY_NAMES ensures !Losable(items, n, x) { Unlosable(items, x); }
        }
      }
    } else {
      var i, x :| 0 <= i < n && x in ENTRY_NAMES && MayTouch(items, i, x)
                  && !(x == "main" && exists m :: i < m < n && MainDef(items[m]));
      LosableIsLost(items, n);
      assert Losable(items, n, x);
      assert !EntryMeant(items, Hostile());
    }
  }

  lemma Unlosable(items: seq<TopLevel>, x: string)
    requires items != [] && Undisturbing(items) && x in ENTRY_NAMES
    requires exists m :: 0 <= m < |items| - 1 && MainDef(items[m])
    ensures !Losable(items, |items| - 1, x)
  {
    hide MayTouch, MainDef;
  }

  lemma {:induction false} OneMain(items: seq<TopLevel>)
    requires items != [] && items[|items| - 1] == Entry && Mains(items) != []
    ensures exists m :: 0 <= m < |items| - 1 && MainDef(items[m])
  {
    if MainDef(items[0]) {
      assert |items| > 1;
    } else {
      OneMain(items[1..]);
      var m :| 0 <= m < |items[1..]| - 1 && MainDef(items[1..][m]);
      assert MainDef(items[m + 1]);
    }
  }

  /**
   The whole module: if nothing rebinds the names of the entry, `main` keeps to the discipline and the
   world does not pry, then a process that gets to the entry and whose hook fails has status 1 as soon as
   `main` returns or raises.
   */
  lemma ModuleFailsClosed(items: seq<TopLevel>, index: nat, k: nat, course: Course, w: World, fuel: nat)
    requires items != [] && items[|items| - 1] == Entry && |Mains(items)| == 1 && Undisturbing(items)
    requires Wellbehaved(Mains(items)[0], index, k) && !w.pries && Reached(items, |items| - 1, course).Some?
    ensures var out := ExecuteBlock(Mains(items)[0], START, w, fuel).out;
            HookFails(Mains(items)[0], index, START, w, fuel) && (out.Returned? || out.Raised?) ==>
              EntryStatus(items, Reached(items, |items| - 1, course).value, course, w, fuel) == Some(1)
  {
    hide ExecuteBlock, HookFails, Reached, Mains, Undisturbing, Wellbehaved;
    EntryExactly(items);
    assert EntryMeant(items, course);
    IndexFits(Mains(items)[0], index, k);
    CheckerFailsClosed(Mains(items)[0], index, k, w, fuel);
  }

  lemma IndexFits(body: seq<Stmt>, index: nat, k: nat)
    requires Wellbehaved(body, index, k)
    ensures index <= |body|
  {
  }

  // ---------------------------------------------------------------- an accepted module that does not call it

  /** `main = lambda: 0` after the definition. */
  const REBIND := Statement(Assign([Name("main")], Lambda(Literal(0))))

  /** A module with the given `main`, another meaning for the name, and the canonical entry. */
  function Shadowing(body: seq<Stmt>): seq<TopLevel> { [Function("main", body), REBIND, Entry] }

  /** The analysis accepts it whenever it accepts `main`, and the process may exit with 0 without running the hook. */
  lemma ShadowedMainAccepted(body: seq<Stmt>, index: nat, w: World, fuel: nat) returns (course: Course)
    requires ConnectedAt(body, index)
    ensures var items := Shadowing(body);
            && Connected(items) && Mains(items) == [body] && Reached(items, 2, course).Some?
            && EntryStatus(items, Reached(items, 2, course).value, course, w, fuel) == Some(0)
  {
    hide ConnectedAt, ExecuteBlock;
    var items := Shadowing(body);
    OnlyMain(body);
    assert ConnectedAt(Mains(items)[0], index) && items[|items| - 1] == Entry;
    course := k => if k == 2 then Event(Some(0), {}) else Event(None, ENTRY_NAMES);
    assert REBIND.s.targets[0] == Name("main") && !SparesTarget(REBIND.s.targets[0], {"main"});
    assert MayTouch(items, 1, "main");
    assert Reached(items, 0, course) == Some({"main"}) && Reached(items, 1, course) == Some({"main"} - {"main"});
    assert Reached(items, 2, course).Some? && "main" in Reached(items, 2, course).value;
  }

  lemma OnlyMain(body: seq<Stmt>)
    ensures Mains(Shadowing(body)) == [body]
  {
    var items := Shadowing(body);
    assert items[1..] == [REBIND, Entry] && items[1..][1..] == [Entry] && items[1..][1..][1..] == [];
    assert Mains(items[1..][1..]) == [] && Mains(items[1..]) == [];
  }
}
