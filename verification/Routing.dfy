/** The gate matrix, and which gates a list of changed paths requires. */
module Routing {
  import opened Wrappers
  import opened Glob
  import Text

  /** Jobs that depend on whether the change needs the full qualification. */
  datatype JobPolicy = AllSuccess | FullOrRegression(full: seq<string>, regression: seq<string>)

  datatype Gate = Gate(id: string, workflow: string, workflowName: string, mandatory: bool,
                       requiredJobs: seq<string>, paths: seq<string>, policy: JobPolicy)

  datatype Contract = Contract(mandatoryIds: seq<string>, gates: seq<Gate>)

  /** What loading the matrix establishes about gate identities. */
  ghost predicate Loaded(c: Contract) {
    && c.mandatoryIds != []
    && (forall i, j :: 0 <= i < j < |c.mandatoryIds| ==> c.mandatoryIds[i] != c.mandatoryIds[j])
    && (forall i, j :: 0 <= i < j < |c.gates| ==> c.gates[i].id != c.gates[j].id)
    && (forall i :: 0 <= i < |c.gates| ==> (c.gates[i].mandatory <==> c.gates[i].id in c.mandatoryIds))
    && (forall id <- c.mandatoryIds :: exists i :: 0 <= i < |c.gates| && c.gates[i].id == id)
  }

  // ---------------------------------------------------------------- one path against ordered rules

  predicate SafePath(path: string) {
    path != "" && path[0] != '/' && ".." !in Text.Split(path, '/')
  }

  predicate Negative(rule: string) { rule != "" && rule[0] == '!' }

  function PatternOf(rule: string): string { if Negative(rule) then rule[1..] else rule }

  predicate Matches(rule: string, path: string) { GlobMatch(PatternOf(rule), path) }

  /** Folding the rules from the left over the decision so far. */
  function Fold(path: string, rules: seq<string>, selected: bool): (r: Result<bool>)
    decreases |rules|
  {
    if rules == [] then Ok(selected)
    else
      match CompiledGlob(PatternOf(rules[0]))
      case Err(e) => Err(e)
      case Ok(_) => Fold(path, rules[1..], if Matches(rules[0], path) then !Negative(rules[0]) else selected)
  }

  function Selected(path: string, rules: seq<string>): (r: Result<bool>) {
    if SafePath(path) then Fold(path, rules, false) else Err("unsafe changed path")
  }

  method PathSelected(path: string, rules: seq<string>) returns (r: Result<bool>)
    ensures r == Selected(path, rules)
  {
    hide GlobMatch, CompiledGlob;
    if !SafePath(path) { return Err("unsafe changed path"); }
    var selected := false;
    assert rules[0..] == rules;
    for i := 0 to |rules|
      invariant Fold(path, rules[i..], selected) == Selected(path, rules)
    {
      assert rules[i..][1..] == rules[i + 1..];
      var negative := Negative(rules[i]);
      var pattern := if negative then rules[i][1..] else rules[i];
      var compiled := GlobRegex(pattern);
      if compiled.Err? { return Err(compiled.error); }
      if GlobMatch(pattern, path) { selected := !negative; }
    }
    r := Ok(selected);
  }

  /** Rule `i` is the last one that matches the path. */
  ghost predicate LastMatch(path: string, rules: seq<string>, i: nat) {
    i < |rules| && Matches(rules[i], path) && forall j :: i < j < |rules| ==> !Matches(rules[j], path)
  }

  ghost predicate RulesSupported(rules: seq<string>) {
    forall i :: 0 <= i < |rules| ==> Supported(PatternOf(rules[i]))
  }

  lemma {:induction false} FoldRaises(path: string, rules: seq<string>, selected: bool)
    ensures Fold(path, rules, selected).Ok? <==> RulesSupported(rules)
    decreases |rules|
  {
    hide Matches, Supported, Negative;
    if rules != [] {
      var rest := rules[1..];
      FoldRaises(path, rest, if Matches(rules[0], path) then !Negative(rules[0]) else selected);
      if RulesSupported(rest) && Supported(PatternOf(rules[0])) {
        forall i | 0 <= i < |rules| ensures Supported(PatternOf(rules[i])) {
          if i > 0 { assert rules[i] == rest[i - 1]; }
        }
      }
      if RulesSupported(rules) {
        forall i | 0 <= i < |rest| ensures Supported(PatternOf(rest[i])) {
          assert rest[i] == rules[i + 1];
        }
      }
    }
  }

  lemma {:induction false} NoMatchKeeps(path: string, rules: seq<string>, selected: bool)
    requires Fold(path, rules, selected).Ok? && forall i :: 0 <= i < |rules| ==> !Matches(rules[i], path)
    ensures Fold(path, rules, selected) == Ok(selected)
    decreases |rules|
  {
    hide Matches, Supported, Negative;
    if rules != [] {
      assert !Matches(rules[0], path);
      NoMatchKeeps(path, rules[1..], selected);
    }
  }

  lemma {:induction false} LastMatchKeeps(path: string, rules: seq<string>, i: nat, selected: bool)
    requires Fold(path, rules, selected).Ok? && LastMatch(path, rules, i)
    ensures Fold(path, rules, selected) == Ok(!Negative(rules[i]))
    decreases |rules|
  {
    hide Matches, Supported, Negative;
    var rest := rules[1..];
    assert forall j :: 0 <= j < |rest| ==> rest[j] == rules[j + 1];
    if i == 0 {
      NoMatchKeeps(path, rest, !Negative(rules[0]));
    } else {
      assert LastMatch(path, rest, i - 1);
      LastMatchKeeps(path, rest, i - 1, if Matches(rules[0], path) then !Negative(rules[0]) else selected);
    }
  }

  /**
   Ordered rules decide by the polarity of the last rule that matches, and select nothing when none
   does; a safe path raises exactly when some rule is unsupported.
   */
  lemma LastMatchDecides(path: string, rules: seq<string>)
    requires SafePath(path)
    ensures Selected(path, rules).Ok? <==> RulesSupported(rules)
    ensures RulesSupported(rules) ==>
              (Selected(path, rules) == Ok(true) <==> exists i: nat :: LastMatch(path, rules, i) && !Negative(rules[i]))
  {
    hide Matches, Supported, Negative, Fold;
    FoldRaises(path, rules, false);
    if RulesSupported(rules) {
      if i: nat :| LastMatch(path, rules, i) {
        LastMatchKeeps(path, rules, i, false);
      } else {
        var last := FindLast(path, rules, |rules|);
        NoMatchKeeps(path, rules, false);
      }
    }
  }

  /** The last match among the first `n` rules, or -1. */
  lemma {:induction false} FindLast(path: string, rules: seq<string>, n: nat) returns (last: int)
    requires n <= |rules|
    ensures -1 <= last < n
    ensures last >= 0 ==> Matches(rules[last], path)
    ensures forall j :: last < j < n ==> !Matches(rules[j], path)
    ensures n == |rules| && last >= 0 ==> LastMatch(path, rules, last)
  {
    hide Matches;
    last := n - 1;
    while last >= 0 && !Matches(rules[last], path)
      invariant -1 <= last < n
      invariant forall j :: last < j < n ==> !Matches(rules[j], path)
    {
      last := last - 1;
    }
  }

  // ---------------------------------------------------------------- the gates a change requires

  /** Whether any path is selected, looking at paths until one is. */
  function AnySelected(paths: seq<string>, rules: seq<string>): (r: Result<bool>) {
    if paths == [] then Ok(false)
    else
      match Selected(paths[0], rules)
      case Err(e) => Err(e)
      case Ok(found) => if found then Ok(true) else AnySelected(paths[1..], rules)
  }

  /** The ids of the specialised gates that the paths select. */
  function Specialised(gates: seq<Gate>, paths: seq<string>): (r: Result<set<string>>)
    decreases |gates|
  {
    if gates == [] then Ok({})
    else
      var init, last := gates[..|gates| - 1], gates[|gates| - 1];
      match Specialised(init, paths)
      case Err(e) => Err(e)
      case Ok(ids) =>
        if last.mandatory then Ok(ids)
        else
          match AnySelected(paths, last.paths)
          case Err(e) => Err(e)
          case Ok(found) => Ok(if found then ids + {last.id} else ids)
  }

  /** The ids in the order in which the matrix declares the gates. */
  function InOrder(gates: seq<Gate>, ids: set<string>): (r: seq<string>) {
    if gates == [] then []
    else (if gates[0].id in ids then [gates[0].id] else []) + InOrder(gates[1..], ids)
  }

  function Required(c: Contract, paths: seq<string>): (r: Result<seq<string>>) {
    if "" in paths then Err("changed-path inventory must be a list of nonempty paths")
    else
      match Specialised(c.gates, paths)
      case Err(e) => Err(e)
      case Ok(ids) => Ok(InOrder(c.gates, (set id | id in c.mandatoryIds) + ids))
  }

  method AnyPathSelected(paths: seq<string>, rules: seq<string>) returns (r: Result<bool>)
    ensures r == AnySelected(paths, rules)
  {
    hide Selected;
    assert paths[0..] == paths;
    for k := 0 to |paths|
      invariant AnySelected(paths, rules) == AnySelected(paths[k..], rules)
    {
      assert paths[k..][1..] == paths[k + 1..];
      r := PathSelected(paths[k], rules);
      if r.Err? || r.value { return; }
    }
    r := Ok(false);
  }

  method RequiredGateIds(c: Contract, paths: seq<string>) returns (r: Result<seq<string>>)
    ensures r == Required(c, paths)
  {
    hide AnySelected;
    if "" in paths { return Err("changed-path inventory must be a list of nonempty paths"); }
    var required := set id | id in c.mandatoryIds;
    ghost var found: set<string> := {};
    for i := 0 to |c.gates|
      invariant Specialised(c.gates[..i], paths) == Ok(found)
      invariant required == (set id | id in c.mandatoryIds) + found
    {
      var gate := c.gates[i];
      assert c.gates[..i + 1][..i] == c.gates[..i];
      if gate.mandatory { continue; }
      var any := AnyPathSelected(paths, gate.paths);
      if any.Err? {
        RaisesBefore(c.gates, paths, i + 1);
        return Err(any.error);
      }
      if any.value {
        required := required + {gate.id};
        found := found + {gate.id};
      }
    }
    assert c.gates[..|c.gates|] == c.gates;
    var ids := ListInOrder(c.gates, required);
    r := Ok(ids);
  }

  method ListInOrder(gates: seq<Gate>, required: set<string>) returns (ids: seq<string>)
    ensures ids == InOrder(gates, required)
  {
    ids := [];
    assert gates[0..] == gates;
    for i := 0 to |gates|
      invariant ids + InOrder(gates[i..], required) == InOrder(gates, required)
    {
      assert gates[i..][1..] == gates[i + 1..];
      if gates[i].id in required { ids := ids + [gates[i].id]; }
    }
  }

  lemma {:induction false} RaisesBefore(gates: seq<Gate>, paths: seq<string>, n: nat)
    requires n <= |gates| && Specialised(gates[..n], paths).Err?
    ensures Specialised(gates, paths) == Specialised(gates[..n], paths)
    decreases |gates| - n
  {
    if n == |gates| {
      assert gates[..n] == gates;
    } else {
      assert gates[..n + 1][..n] == gates[..n];
      RaisesBefore(gates, paths, n + 1);
    }
  }

  // ---------------------------------------------------------------- what routing means

  /** The gate always runs, or one of the paths selects it. */
  ghost predicate Applicable(g: Gate, c: Contract, paths: seq<string>) {
    g.id in c.mandatoryIds || (!g.mandatory && exists p <- paths :: Selected(p, g.paths) == Ok(true))
  }

  lemma {:induction false} AnySelectedMeans(paths: seq<string>, rules: seq<string>)
    ensures AnySelected(paths, rules).Ok? ==>
              (AnySelected(paths, rules).value <==> exists p <- paths :: Selected(p, rules) == Ok(true))
  {
    hide Selected;
    if paths != [] {
      AnySelectedMeans(paths[1..], rules);
      assert forall p :: p in paths <==> p == paths[0] || p in paths[1..];
    }
  }

  lemma {:induction false} SpecialisedMeans(gates: seq<Gate>, paths: seq<string>)
    requires forall i, j :: 0 <= i < j < |gates| ==> gates[i].id != gates[j].id
    ensures Specialised(gates, paths).Ok? ==>
              && (forall i :: 0 <= i < |gates| ==>
                    (gates[i].id in Specialised(gates, paths).value <==>
                     !gates[i].mandatory && exists p <- paths :: Selected(p, gates[i].paths) == Ok(true)))
              && (forall id <- Specialised(gates, paths).value :: exists i :: 0 <= i < |gates| && gates[i].id == id)
    decreases |gates|
  {
    hide Selected, AnySelected;
    if gates != [] && Specialised(gates, paths).Ok? {
      var n := |gates| - 1;
      var init, last := gates[..n], gates[n];
      SpecialisedMeans(init, paths);
      AnySelectedMeans(paths, last.paths);
      var earlier, all := Specialised(init, paths).value, Specialised(gates, paths).value;
      assert forall i :: 0 <= i < |init| ==> init[i] == gates[i] && init[i].id != last.id;
      forall i | 0 <= i < |gates|
        ensures gates[i].id in all <==>
                  !gates[i].mandatory && exists p <- paths :: Selected(p, gates[i].paths) == Ok(true)
      {
        if i < n { assert gates[i] == init[i]; }
      }
      forall id | id in all ensures exists i :: 0 <= i < |gates| && gates[i].id == id {
        if id in earlier {
          var i :| 0 <= i < |init| && init[i].id == id;
          assert gates[i].id == id;
        }
      }
    }
  }

  lemma {:induction false} InOrderMembers(gates: seq<Gate>, ids: set<string>, id: string)
    ensures id in InOrder(gates, ids) <==> id in ids && exists i :: 0 <= i < |gates| && gates[i].id == id
  {
    if gates != [] {
      InOrderMembers(gates[1..], ids, id);
      if i :| 0 <= i < |gates| && gates[i].id == id {
        if i > 0 { assert gates[1..][i - 1].id == id; }
      }
      if i :| 0 <= i < |gates[1..]| && gates[1..][i].id == id {
        assert gates[i + 1].id == id;
      }
    }
  }

  predicate Distinct(ids: seq<string>) { forall i, j :: 0 <= i < j < |ids| ==> ids[i] != ids[j] }

  lemma {:induction false} InOrderDistinct(gates: seq<Gate>, ids: set<string>)
    requires forall i, j :: 0 <= i < j < |gates| ==> gates[i].id != gates[j].id
    ensures Distinct(InOrder(gates, ids))
  {
    if gates != [] {
      InOrderDistinct(gates[1..], ids);
      InOrderMembers(gates[1..], ids, gates[0].id);
      assert gates[0].id !in InOrder(gates[1..], ids) by {
        if i :| 0 <= i < |gates[1..]| && gates[1..][i].id == gates[0].id {
          assert gates[i + 1].id == gates[0].id;
        }
      }
    }
  }

  lemma {:induction false} InOrderDepends(gates: seq<Gate>, a: set<string>, b: set<string>)
    requires forall i :: 0 <= i < |gates| ==> (gates[i].id in a <==> gates[i].id in b)
    ensures InOrder(gates, a) == InOrder(gates, b)
  {
    if gates != [] { InOrderDepends(gates[1..], a, b); }
  }

  /** Routing returns exactly the applicable gates, each once, in the order of the matrix. */
  lemma RequiredMeans(c: Contract, paths: seq<string>)
    requires Loaded(c) && Required(c, paths).Ok?
    ensures var ids := Required(c, paths).value;
            && Distinct(ids)
            && (forall id :: id in ids <==>
                  exists i :: 0 <= i < |c.gates| && c.gates[i].id == id && Applicable(c.gates[i], c, paths))
            && ids == InOrder(c.gates, set id | id in ids)
  {
    hide Selected, Specialised, InOrder;
    SpecialisedMeans(c.gates, paths);
    var chosen := (set id | id in c.mandatoryIds) + Specialised(c.gates, paths).value;
    var ids := Required(c, paths).value;
    InOrderDistinct(c.gates, chosen);
    forall id
      ensures id in ids <==> exists i :: 0 <= i < |c.gates| && c.gates[i].id == id && Applicable(c.gates[i], c, paths) {
      InOrderMembers(c.gates, chosen, id);
    }
    forall i | 0 <= i < |c.gates| ensures c.gates[i].id in chosen <==> c.gates[i].id in (set id | id in ids) {
      InOrderMembers(c.gates, chosen, c.gates[i].id);
    }
    InOrderDepends(c.gates, chosen, set id | id in ids);
  }

  /** More paths never require fewer gates. */
  lemma RoutingMonotone(c: Contract, xs: seq<string>, ys: seq<string>)
    requires Loaded(c) && Required(c, xs).Ok? && Required(c, ys).Ok? && forall x <- xs :: x in ys
    ensures forall id <- Required(c, xs).value :: id in Required(c, ys).value
  {
    hide Required, Selected;
    RequiredMeans(c, xs);
    RequiredMeans(c, ys);
    forall id | id in Required(c, xs).value ensures id in Required(c, ys).value {
      var i :| 0 <= i < |c.gates| && c.gates[i].id == id && Applicable(c.gates[i], c, xs);
      assert Applicable(c.gates[i], c, ys);
    }
  }

  lemma {:induction false} AnySelectedConcat(xs: seq<string>, ys: seq<string>, rules: seq<string>)
    ensures AnySelected(xs + ys, rules) ==
            match AnySelected(xs, rules)
            case Err(e) => Err(e)
            case Ok(found) => if found then Ok(true) else AnySelected(ys, rules)
  {
    hide Selected;
    if xs == [] {
      assert xs + ys == ys;
    } else {
      AnySelectedConcat(xs[1..], ys, rules);
      assert (xs + ys)[0] == xs[0] && (xs + ys)[1..] == xs[1..] + ys;
    }
  }

  lemma {:induction false} SpecialisedConcat(gates: seq<Gate>, xs: seq<string>, ys: seq<string>)
    requires Specialised(gates, xs).Ok? && Specialised(gates, ys).Ok?
    ensures Specialised(gates, xs + ys) == Ok(Specialised(gates, xs).value + Specialised(gates, ys).value)
    decreases |gates|
  {
    hide AnySelected;
    if gates == [] {
      assert Specialised(gates, xs).value + Specialised(gates, ys).value == {};
    } else {
      var n := |gates| - 1;
      SpecialisedConcat(gates[..n], xs, ys);
      AnySelectedConcat(xs, ys, gates[n].paths);
      if !gates[n].mandatory {
        var a, b := Specialised(gates[..n], xs).value, Specialised(gates[..n], ys).value;
        var id := {gates[n].id};
        assert (a + id) + b == a + b + id && a + (b + id) == a + b + id && (a + id) + (b + id) == a + b + id;
      }
    }
  }

  /** Routing distributes over the union of path lists. */
  lemma RoutingDistributes(c: Contract, xs: seq<string>, ys: seq<string>)
    requires Loaded(c) && Required(c, xs).Ok? && Required(c, ys).Ok?
    ensures Required(c, xs + ys).Ok?
    ensures forall id :: id in Required(c, xs + ys).value <==>
              id in Required(c, xs).value || id in Required(c, ys).value
  {
    hide Specialised, InOrder;
    SpecialisedConcat(c.gates, xs, ys);
    var mandatory := set id | id in c.mandatoryIds;
    var a, b := Specialised(c.gates, xs).value, Specialised(c.gates, ys).value;
    forall id ensures id in Required(c, xs + ys).value <==> id in Required(c, xs).value || id in Required(c, ys).value {
      InOrderMembers(c.gates, mandatory + (a + b), id);
      InOrderMembers(c.gates, mandatory + a, id);
      InOrderMembers(c.gates, mandatory + b, id);
    }
  }

  /** When rename sources add no gate, routing with them and without them is the same. */
  lemma RenameGuard(c: Contract, changed: seq<string>, original: seq<string>)
    requires Loaded(c) && Required(c, changed).Ok? && Required(c, original).Ok?
    requires forall p <- changed :: p in original
    requires forall id <- Required(c, original).value :: id in Required(c, changed).value
    ensures Required(c, original) == Required(c, changed)
  {
    hide Required;
    RoutingMonotone(c, changed, original);
    RequiredMeans(c, changed);
    RequiredMeans(c, original);
    assert (set id | id in Required(c, changed).value) == (set id | id in Required(c, original).value);
  }
}
