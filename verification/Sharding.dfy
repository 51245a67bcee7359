/** How heads are distributed over writer shards and how a shard drains its backlog. */
module Sharding {
  import opened Wrappers
  import opened Ordering

  predicate HexDigit(c: char) { '0' <= c <= '9' || 'a' <= c <= 'f' }

  predicate IsSha(s: string) { |s| == 40 && forall i :: 0 <= i < |s| ==> HexDigit(s[i]) }

  /** The hexadecimal digits in ascending order. */
  function Digits(): (d: string)
    ensures |d| == 16 && forall c :: c in d <==> HexDigit(c)
    ensures forall i, j :: 0 <= i < j < |d| ==> d[i] < d[j]
  {
    "0123456789abcdef"
  }

  datatype Group = Group(shard: char, heads: seq<string>)

  /** The heads of a list that start with `digit`, in order. */
  function Bucket(heads: seq<string>, digit: char): (r: seq<string>)
    decreases |heads|
  {
    if heads == [] then []
    else
      var init, last := heads[..|heads| - 1], heads[|heads| - 1];
      Bucket(init, digit) + (if last != [] && last[0] == digit then [last] else [])
  }

  /** The nonempty buckets, in the order of the given digits. */
  function Groups(heads: seq<string>, digits: string): (r: seq<Group>) {
    if digits == [] then []
    else
      var bucket := Bucket(heads, digits[0]);
      (if bucket == [] then [] else [Group(digits[0], bucket)]) + Groups(heads, digits[1..])
  }

  function GroupsOf(heads: seq<string>): (r: Result<seq<Group>>) {
    if forall h <- heads :: IsSha(h) then Ok(Groups(SortedSet(heads, StringLess), Digits()))
    else Err("cannot group malformed head SHA")
  }

  lemma BucketStep(heads: seq<string>, i: nat)
    requires i < |heads| && heads[i] != []
    ensures forall c {:trigger Bucket(heads[..i + 1], c)} ::
              Bucket(heads[..i + 1], c) == Bucket(heads[..i], c) + (if heads[i][0] == c then [heads[i]] else [])
  {
    assert heads[..i + 1][..i] == heads[..i];
  }

  lemma NoBuckets()
    ensures forall c :: Bucket([], c) == []
  {
  }

  method GroupHeadShas(heads: seq<string>) returns (r: Result<seq<Group>>)
    ensures r == GroupsOf(heads)
  {
    hide StringLess, IsSha, Digits, SortedSet, Bucket, Groups;
    NoBuckets();
    var sorted := SortedSet(heads, StringLess);
    assert forall h :: h in sorted <==> h in heads by {
      StringsOrdered();
      SortedSetCorrect(heads, StringLess);
    }
    var buckets: map<char, seq<string>> := map[];
    for i := 0 to |sorted|
      invariant forall k :: 0 <= k < i ==> IsSha(sorted[k])
      invariant forall c :: c in buckets <==> Bucket(sorted[..i], c) != []
      invariant forall c :: c in buckets ==> buckets[c] == Bucket(sorted[..i], c)
    {
      var head := sorted[i];
      if !IsSha(head) {
        assert head in heads;
        return Err("cannot group malformed head SHA");
      }
      FirstDigit(head);
      BucketStep(sorted, i);
      if head[0] !in buckets { buckets := buckets[head[0] := []]; }
      buckets := buckets[head[0] := buckets[head[0]] + [head]];
    }
    assert sorted[..|sorted|] == sorted;
    forall h | h in heads ensures IsSha(h) {
      assert h in sorted;
    }
    var groups := Collect(sorted, buckets);
    r := Ok(groups);
  }

  /** The buckets sorted by shard. */
  method Collect(ghost sorted: seq<string>, buckets: map<char, seq<string>>) returns (groups: seq<Group>)
    requires forall c :: c in buckets <==> Bucket(sorted, c) != []
    requires forall c :: c in buckets ==> buckets[c] == Bucket(sorted, c)
    ensures groups == Groups(sorted, Digits())
  {
    hide Digits, Bucket;
    var digits := Digits();
    groups := [];
    assert digits[0..] == digits;
    for k := 0 to |digits|
      invariant groups + Groups(sorted, digits[k..]) == Groups(sorted, digits)
    {
      assert digits[k..][1..] == digits[k + 1..];
      if digits[k] in buckets { groups := groups + [Group(digits[k], buckets[digits[k]])]; }
    }
  }

  // ---------------------------------------------------------------- the shards partition the heads

  lemma {:induction false} BucketMembers(heads: seq<string>, digit: char, h: string)
    ensures h in Bucket(heads, digit) <==> h in heads && h != [] && h[0] == digit
    decreases |heads|
  {
    if heads != [] {
      var init, last := heads[..|heads| - 1], heads[|heads| - 1];
      BucketMembers(init, digit, h);
      assert heads == init + [last];
    }
  }

  lemma {:induction false} BucketAscending(heads: seq<string>, digit: char)
    requires Ascending(heads, StringLess)
    ensures Ascending(Bucket(heads, digit), StringLess)
    decreases |heads|
  {
    hide StringLess;
    if heads != [] {
      var init, last := heads[..|heads| - 1], heads[|heads| - 1];
      BucketAscending(init, digit);
      var earlier := Bucket(init, digit);
      forall i | 0 <= i < |earlier| ensures StringLess(earlier[i], last) {
        BucketMembers(init, digit, earlier[i]);
        var j :| 0 <= j < |init| && init[j] == earlier[i];
        assert heads[j] == earlier[i] && heads[|heads| - 1] == last;
      }
    }
  }

  /** A group is the whole, nonempty bucket of one of the digits. */
  ghost predicate GroupOf(g: Group, heads: seq<string>, digits: string) {
    g.shard in digits && g.heads == Bucket(heads, g.shard) && g.heads != [] && Ascending(g.heads, StringLess)
  }

  /** One group per digit at most, in ascending order. */
  lemma {:induction false} GroupsShape(heads: seq<string>, digits: string)
    requires Ascending(heads, StringLess)
    requires forall i, j :: 0 <= i < j < |digits| ==> digits[i] < digits[j]
    ensures var gs := Groups(heads, digits);
            && |gs| <= |digits|
            && (forall i :: 0 <= i < |gs| ==> GroupOf(gs[i], heads, digits))
            && (forall i, j :: 0 <= i < j < |gs| ==> gs[i].shard < gs[j].shard)
  {
    hide Bucket, StringLess;
    if digits != [] {
      var rest := Groups(heads, digits[1..]);
      GroupsShape(heads, digits[1..]);
      BucketAscending(heads, digits[0]);
      forall i | 0 <= i < |rest| ensures GroupOf(rest[i], heads, digits) && digits[0] < rest[i].shard {
        assert GroupOf(rest[i], heads, digits[1..]);
      }
    }
  }

  /** Every digit with a nonempty bucket has its group. */
  lemma {:induction false} GroupsCover(heads: seq<string>, digits: string, d: char)
    requires d in digits && Bucket(heads, d) != []
    ensures exists i :: 0 <= i < |Groups(heads, digits)| && Groups(heads, digits)[i].shard == d
  {
    hide Bucket;
    var gs := Groups(heads, digits);
    if d == digits[0] {
      assert gs[0].shard == d;
    } else {
      GroupsCover(heads, digits[1..], d);
      var rest := Groups(heads, digits[1..]);
      var i :| 0 <= i < |rest| && rest[i].shard == d;
      assert gs[i + |gs| - |rest|].shard == d;
    }
  }

  /**
   At most sixteen shards in ascending order; each is an ascending, nonempty list of heads that
   start with its digit; and every head of the list is in exactly the shard of its first digit.
   */
  lemma ShardsPartition(heads: seq<string>)
    requires GroupsOf(heads).Ok?
    ensures var gs := GroupsOf(heads).value;
            && |gs| <= 16
            && (forall i, j :: 0 <= i < j < |gs| ==> gs[i].shard < gs[j].shard)
            && (forall i :: 0 <= i < |gs| ==> gs[i].heads != [] && Ascending(gs[i].heads, StringLess))
            && (forall i, h :: 0 <= i < |gs| ==> (h in gs[i].heads <==> h in heads && h[0] == gs[i].shard))
            && (forall h <- heads :: exists i :: 0 <= i < |gs| && h in gs[i].heads)
  {
    hide StringLess, IsSha, Digits, Groups, Bucket, SortedSet;
    StringsOrdered();
    SortedSetCorrect(heads, StringLess);
    var sorted := SortedSet(heads, StringLess);
    var gs := Groups(sorted, Digits());
    GroupsShape(sorted, Digits());
    forall h | h in heads ensures h != [] && HexDigit(h[0]) { FirstDigit(h); }
    forall i | 0 <= i < |gs| ensures gs[i].heads != [] && Ascending(gs[i].heads, StringLess) {
      assert GroupOf(gs[i], sorted, Digits());
    }
    forall i, h | 0 <= i < |gs| ensures h in gs[i].heads <==> h in heads && h[0] == gs[i].shard {
      assert GroupOf(gs[i], sorted, Digits());
      BucketMembers(sorted, gs[i].shard, h);
    }
    forall h | h in heads ensures exists i :: 0 <= i < |gs| && h in gs[i].heads {
      BucketMembers(sorted, h[0], h);
      GroupsCover(sorted, Digits(), h[0]);
      var i :| 0 <= i < |gs| && gs[i].shard == h[0];
      assert GroupOf(gs[i], sorted, Digits());
    }
  }

  lemma FirstDigit(h: string)
    requires IsSha(h)
    ensures h != [] && HexDigit(h[0])
  {
  }

  lemma {:induction false} BucketWhole(heads: seq<string>, digit: char)
    requires forall i :: 0 <= i < |heads| ==> heads[i] != [] && heads[i][0] == digit
    ensures Bucket(heads, digit) == heads
    decreases |heads|
  {
    if heads != [] {
      BucketWhole(heads[..|heads| - 1], digit);
      assert heads == heads[..|heads| - 1] + [heads[|heads| - 1]];
    }
  }

  lemma {:induction false} BucketEmpty(heads: seq<string>, digit: char)
    requires forall i :: 0 <= i < |heads| ==> heads[i] != [] && heads[i][0] != digit
    ensures Bucket(heads, digit) == []
    decreases |heads|
  {
    if heads != [] { BucketEmpty(heads[..|heads| - 1], digit); }
  }

  lemma {:induction false} GroupsSingle(heads: seq<string>, digits: string, d: char)
    requires heads != [] && forall i :: 0 <= i < |heads| ==> heads[i] != [] && heads[i][0] == d
    requires forall i, j :: 0 <= i < j < |digits| ==> digits[i] < digits[j]
    ensures Groups(heads, digits) == if d in digits then [Group(d, heads)] else []
  {
    if digits != [] {
      GroupsSingle(heads, digits[1..], d);
      if digits[0] == d { BucketWhole(heads, d); } else { BucketEmpty(heads, digits[0]); }
      assert d in digits <==> d == digits[0] || d in digits[1..];
    }
  }

  /** What a writer demands of the shard it is given. */
  predicate PassesGuard(shard: char, heads: seq<string>) {
    && heads != [] && GroupsOf(heads).Ok?
    && var gs := GroupsOf(heads).value;
       |gs| == 1 && gs[0].shard == shard && |gs[0].heads| == |heads|
  }

  /** Regrouping an emitted group gives that group, so every emitted group passes the writer's guard. */
  lemma RegroupIsStable(heads: seq<string>, k: nat)
    requires GroupsOf(heads).Ok? && k < |GroupsOf(heads).value|
    ensures var g := GroupsOf(heads).value[k];
            GroupsOf(g.heads) == Ok([g]) && PassesGuard(g.shard, g.heads)
  {
    hide StringLess, IsSha, Digits, Groups, Bucket, SortedSet;
    ShardsPartition(heads);
    var g := GroupsOf(heads).value[k];
    StringsOrdered();
    SortedSetFixed(g.heads, StringLess);
    forall i | 0 <= i < |g.heads|
      ensures IsSha(g.heads[i]) && g.heads[i] != [] && g.heads[i][0] == g.shard && HexDigit(g.shard) {
      assert g.heads[i] in g.heads;
      FirstDigit(g.heads[i]);
    }
    assert g.heads[0] != [] && HexDigit(g.shard);
    GroupsSingle(g.heads, Digits(), g.shard);
  }

  // ---------------------------------------------------------------- draining a shard hour by hour

  function Selected(heads: seq<string>, slot: nat): (h: string)
    requires heads != []
  {
    heads[slot % |heads|]
  }

  lemma SlotFor(n: nat, start: nat, i: nat) returns (slot: nat)
    requires i < n
    ensures start <= slot < start + n && slot % n == i
  {
    var r, q := start % n, start / n;
    assert start == n * q + r;
    if i >= r {
      slot := start + (i - r);
      Remainder(n, q, i);
      assert slot == n * q + i;
    } else {
      slot := start + (i - r) + n;
      Remainder(n, q + 1, i);
      assert slot == n * (q + 1) + i;
    }
  }

  lemma Remainder(n: nat, q: nat, i: nat)
    requires i < n
    ensures (n * q + i) % n == i
  {
    var x := n * q + i;
    var quotient, rest := x / n, x % n;
    assert x == n * quotient + rest;
    SameQuotient(n, q, quotient, i, rest);
  }

  lemma SameQuotient(n: int, a: int, b: int, i: int, j: int)
    requires 0 <= i < n && 0 <= j < n && n * a + i == n * b + j
    ensures i == j
  {
    Apart(n, a, b);
    Apart(n, b, a);
  }

  lemma Apart(n: int, a: int, b: int)
    requires n > 0
    ensures a < b ==> n * b >= n * a + n
  {
    if a < b {
      var d := b - a - 1;
      assert n * b == n * a + n + n * d;
      assert n * d >= 0;
    }
  }

  lemma SameSlot(n: nat, start: nat, a: nat, b: nat)
    requires n > 0 && start <= a < start + n && start <= b < start + n && a % n == b % n
    ensures a == b
  {
    var qa, qb := a / n, b / n;
    assert a == n * qa + a % n && b == n * qb + b % n;
    Apart(n, qa, qb);
    Apart(n, qb, qa);
  }

  /** Any n consecutive hours over a stable shard of n heads select each head exactly once. */
  lemma EachHeadOnce(heads: seq<string>, start: nat, head: string)
    requires Ascending(heads, StringLess) && head in heads
    ensures exists slot ::
              && start <= slot < start + |heads| && Selected(heads, slot) == head
              && forall other :: start <= other < start + |heads| && Selected(heads, other) == head ==> other == slot
  {
    hide StringLess;
    StringsOrdered();
    var n := |heads|;
    var i :| 0 <= i < n && heads[i] == head;
    var slot := SlotFor(n, start, i);
    forall other | start <= other < start + n && Selected(heads, other) == head ensures other == slot {
      AscendingInjective(heads, StringLess, i, other % n);
      SameSlot(n, start, other, slot);
    }
    assert Selected(heads, slot) == head;
  }
}
