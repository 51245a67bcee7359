/** Sorting without repetition, and the order of strings by code point. */
module Ordering {

  predicate StringLess(a: string, b: string) {
    b != [] && (a == [] || a[0] < b[0] || (a[0] == b[0] && StringLess(a[1..], b[1..])))
  }

  ghost predicate StrictOrder<T(!new)>(less: (T, T) -> bool) {
    && (forall a :: !less(a, a))
    && (forall a, b, c :: less(a, b) && less(b, c) ==> less(a, c))
    && (forall a, b :: less(a, b) || a == b || less(b, a))
  }

  lemma StringsOrdered()
    ensures StrictOrder(StringLess)
  {
    forall a: string ensures !StringLess(a, a) { Irreflexive(a); }
    forall a: string, b, c | StringLess(a, b) && StringLess(b, c) ensures StringLess(a, c) { Transitive(a, b, c); }
    forall a: string, b ensures StringLess(a, b) || a == b || StringLess(b, a) { Total(a, b); }
  }

  lemma {:induction false} Irreflexive(a: string)
    ensures !StringLess(a, a)
  {
    if a != [] { Irreflexive(a[1..]); }
  }

  lemma {:induction false} Transitive(a: string, b: string, c: string)
    requires StringLess(a, b) && StringLess(b, c)
    ensures StringLess(a, c)
  {
    if a != [] && a[0] == b[0] == c[0] { Transitive(a[1..], b[1..], c[1..]); }
  }

  lemma {:induction false} Total(a: string, b: string)
    ensures StringLess(a, b) || a == b || StringLess(b, a)
  {
    if a != [] && b != [] && a[0] == b[0] {
      Total(a[1..], b[1..]);
      assert a == [a[0]] + a[1..] && b == [b[0]] + b[1..];
    }
  }

  ghost predicate Ascending<T>(s: seq<T>, less: (T, T) -> bool) {
    forall i, j :: 0 <= i < j < |s| ==> less(s[i], s[j])
  }

  function Insert<T(==)>(x: T, s: seq<T>, less: (T, T) -> bool): (r: seq<T>) {
    if s == [] then [x]
    else if x == s[0] then s
    else if less(x, s[0]) then [x] + s
    else [s[0]] + Insert(x, s[1..], less)
  }

  /** `sorted(set(xs))` */
  function SortedSet<T(==)>(xs: seq<T>, less: (T, T) -> bool): (r: seq<T>)
    decreases |xs|
  {
    if xs == [] then [] else Insert(xs[|xs| - 1], SortedSet(xs[..|xs| - 1], less), less)
  }

  lemma {:induction false} InsertMembers<T>(x: T, s: seq<T>, less: (T, T) -> bool, y: T)
    ensures y in Insert(x, s, less) <==> y == x || y in s
  {
    if s != [] { InsertMembers(x, s[1..], less, y); assert y in s <==> y == s[0] || y in s[1..]; }
  }

  lemma {:induction false} InsertAscending<T(!new)>(x: T, s: seq<T>, less: (T, T) -> bool)
    requires StrictOrder(less) && Ascending(s, less)
    ensures Ascending(Insert(x, s, less), less)
  {
    if s != [] && x != s[0] && !less(x, s[0]) {
      var rest := Insert(x, s[1..], less);
      InsertAscending(x, s[1..], less);
      forall j | 0 <= j < |rest| ensures less(s[0], rest[j]) {
        InsertMembers(x, s[1..], less, rest[j]);
      }
    }
  }

  /** Sorting a list as a set gives an ascending list of the same elements. */
  lemma {:induction false} SortedSetCorrect<T(!new)>(xs: seq<T>, less: (T, T) -> bool)
    requires StrictOrder(less)
    ensures Ascending(SortedSet(xs, less), less)
    ensures forall y :: y in SortedSet(xs, less) <==> y in xs
    decreases |xs|
  {
    if xs != [] {
      var init, last := xs[..|xs| - 1], xs[|xs| - 1];
      SortedSetCorrect(init, less);
      InsertAscending(last, SortedSet(init, less), less);
      forall y ensures y in SortedSet(xs, less) <==> y in xs {
        InsertMembers(last, SortedSet(init, less), less, y);
        assert xs == init + [last];
      }
    }
  }

  /** An ascending list is determined by its elements. */
  lemma {:induction false} AscendingUnique<T(!new)>(a: seq<T>, b: seq<T>, less: (T, T) -> bool)
    requires StrictOrder(less) && Ascending(a, less) && Ascending(b, less)
    requires forall y :: y in a <==> y in b
    ensures a == b
    decreases |a|
  {
    assert b != [] ==> b[0] in b;
    if a != [] {
      assert a[0] in a;
      FirstIsLeast(a, less, b[0]);
      FirstIsLeast(b, less, a[0]);
      forall y ensures y in a[1..] <==> y in b[1..] {
        TailMembers(a, less, y);
        TailMembers(b, less, y);
      }
      AscendingUnique(a[1..], b[1..], less);
      assert a == [a[0]] + a[1..] && b == [b[0]] + b[1..];
    }
  }

  lemma FirstIsLeast<T(!new)>(s: seq<T>, less: (T, T) -> bool, x: T)
    requires Ascending(s, less) && x in s
    ensures x == s[0] || less(s[0], x)
  {
    var i :| 0 <= i < |s| && s[i] == x;
    assert i > 0 ==> less(s[0], s[i]);
  }

  lemma TailMembers<T(!new)>(s: seq<T>, less: (T, T) -> bool, y: T)
    requires StrictOrder(less) && Ascending(s, less) && s != []
    ensures y in s[1..] <==> y in s && y != s[0]
  {
    if y in s[1..] {
      var i :| 0 <= i < |s[1..]| && s[1..][i] == y;
      assert less(s[0], s[i + 1]);
    }
    assert y in s <==> y == s[0] || y in s[1..];
  }

  lemma AscendingInjective<T(!new)>(s: seq<T>, less: (T, T) -> bool, i: nat, j: nat)
    requires StrictOrder(less) && Ascending(s, less) && i < |s| && j < |s|
    ensures s[i] == s[j] ==> i == j
  {
    assert i < j ==> less(s[i], s[j]);
    assert j < i ==> less(s[j], s[i]);
  }

  /** Sorting an ascending list changes nothing. */
  lemma SortedSetFixed<T(!new)>(s: seq<T>, less: (T, T) -> bool)
    requires StrictOrder(less) && Ascending(s, less)
    ensures SortedSet(s, less) == s
  {
    SortedSetCorrect(s, less);
    AscendingUnique(SortedSet(s, less), s, less);
  }
}
