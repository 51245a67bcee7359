/**
 What the lexical scanner of tools/check_namespaces.py computes: functions that work on the rest of
 the text from a cursor on and give lengths, and what stripping with them keeps.
 */
module RustScanner {
  import opened Wrappers

  // ---------------------------------------------------------------- token lengths

  function HashRun(s: string): (n: nat)
    ensures n <= |s|
  {
    if s != [] && s[0] == '#' then 1 + HashRun(s[1..]) else 0
  }

  function Hashes(n: nat): (s: string)
    ensures |s| == n
  {
    seq(n, _ => '#')
  }

  predicate OccursAt(s: string, needle: string, i: nat) {
    i + |needle| <= |s| && s[i..i + |needle|] == needle
  }

  /** The first occurrence of `needle` at or after `from`. */
  function Find(s: string, needle: string, from: nat): (r: Option<nat>)
    ensures r.Some? ==> from <= r.value && OccursAt(s, needle, r.value)
    ensures forall j :: from <= j < (if r.Some? then r.value else |s| + 1) ==> !OccursAt(s, needle, j)
    decreases |s| - from
  {
    if from + |needle| > |s| then None
    else if OccursAt(s, needle, from) then Some(from)
    else Find(s, needle, from + 1)
  }

  function RawLength(s: string): (r: Option<nat>)
    ensures r.Some? ==> 0 < r.value <= |s|
  {
    if s == [] || s[0] != 'r' then None else
    var h := HashRun(s[1..]);
    if 1 + h >= |s| || s[1 + h] != '"' then None else
    match Find(s, "\"" + Hashes(h), 2 + h)
    case None => Some(|s|)
    case Some(i) => Some(i + 1 + h)
  }

  /** Length of the rest of an ordinary string literal, closing quote included. */
  function LiteralTail(s: string): (n: nat)
    ensures n <= |s|
  {
    if s == [] then 0
    else if s[0] == '\\' then (if |s| == 1 then 1 else 2 + LiteralTail(s[2..]))
    else if s[0] == '"' then 1
    else 1 + LiteralTail(s[1..])
  }

  function QuotedLength(s: string): (r: Option<nat>)
    requires s != []
    ensures r.Some? ==> 0 < r.value <= |s|
  {
    if RawLength(s).Some? then RawLength(s)
    else if s[0] != '"' then None
    else Some(1 + LiteralTail(s[1..]))
  }

  function LineLength(s: string): (n: nat)
    ensures n <= |s|
    ensures forall i :: 0 <= i < n ==> s[i] != '\n'
    ensures n < |s| ==> s[n] == '\n'
  {
    if s == [] || s[0] == '\n' then 0 else 1 + LineLength(s[1..])
  }

  /** Length of the rest of a block comment entered `depth` times. */
  function BlockLength(s: string, depth: nat): (n: nat)
    ensures n <= |s|
    decreases |s|
  {
    if s == [] || depth == 0 then 0
    else if "/*" <= s then 2 + BlockLength(s[2..], depth + 1)
    else if "*/" <= s then 2 + BlockLength(s[2..], depth - 1)
    else 1 + BlockLength(s[1..], depth)
  }

  datatype Kind = Quoted | Comment | Plain
  datatype Token = Token(kind: Kind, length: nat)

  function FirstToken(s: string): (t: Token)
    requires s != []
    ensures 0 < t.length <= |s|
  {
    if QuotedLength(s).Some? then Token(Quoted, QuotedLength(s).value)
    else if "//" <= s then Token(Comment, 2 + LineLength(s[2..]))
    else if "/*" <= s then Token(Comment, 2 + BlockLength(s[2..], 1))
    else Token(Plain, 1)
  }

  function Blank(s: string): (r: string)
    ensures |r| == |s|
    ensures forall i :: 0 <= i < |s| ==> r[i] == if s[i] == '\n' then '\n' else ' '
  {
    seq(|s|, i requires 0 <= i < |s| => if s[i] == '\n' then '\n' else ' ')
  }

  /** The text with every comment blanked. */
  function Stripped(s: string): (r: string)
    ensures |r| == |s|
    decreases |s|
  {
    if s == [] then []
    else
      var t := FirstToken(s);
      (if t.kind == Comment then Blank(s[..t.length]) else s[..t.length]) + Stripped(s[t.length..])
  }

  // ---------------------------------------------------------------- what stripping keeps

  datatype Span = Span(kind: Kind, start: nat, end: nat)

  /** The tokens of a text that starts at offset `base`, with their positions. */
  function Spans(s: string, base: nat): (spans: seq<Span>)
    ensures forall p <- spans :: base <= p.start < p.end <= base + |s|
    decreases |s|
  {
    if s == [] then []
    else
      var t := FirstToken(s);
      [Span(t.kind, base, base + t.length)] + Spans(s[t.length..], base + t.length)
  }

  /** The spans are consecutive and cover the whole text. */
  lemma {:induction false} SpansTile(s: string, base: nat)
    ensures s != [] ==> Spans(s, base) != [] && Spans(s, base)[0].start == base
    ensures s != [] ==> Spans(s, base)[|Spans(s, base)| - 1].end == base + |s|
    ensures forall i :: 0 <= i < |Spans(s, base)| - 1 ==> Spans(s, base)[i].end == Spans(s, base)[i + 1].start
    decreases |s|
  {
    hide FirstToken;
    if s != [] {
      var t := FirstToken(s);
      SpansTile(s[t.length..], base + t.length);
    }
  }

  /** Comments become blanks of the same length; every other token is untouched. */
  lemma {:induction false} StrippedBySpan(s: string, base: nat, p: Span, i: nat)
    requires p in Spans(s, base) && p.start <= base + i < p.end
    ensures i < |s|
    ensures Stripped(s)[i] == if p.kind == Comment && s[i] != '\n' then ' ' else s[i]
    decreases |s|
  {
    hide FirstToken;
    var t := FirstToken(s);
    if p != Span(t.kind, base, base + t.length) {
      StrippedBySpan(s[t.length..], base + t.length, p, i - t.length);
    }
  }

  /** Stripping keeps every newline where it was and introduces none. */
  lemma {:induction false} StrippedKeepsNewlines(s: string, i: nat)
    requires i < |s|
    ensures Stripped(s)[i] == '\n' <==> s[i] == '\n'
    ensures Stripped(s)[i] == s[i] || Stripped(s)[i] == ' '
    decreases |s|
  {
    var t := FirstToken(s);
    if i >= t.length {
      StrippedKeepsNewlines(s[t.length..], i - t.length);
    }
  }

  // A quoted token that ends inside the text is decided by its own characters.

  /** Finding depends only on the characters up to the end of the first occurrence. */
  lemma FindStable(s: string, u: string, needle: string, from: nat)
    requires Find(s, needle, from).Some?
    requires s[..Find(s, needle, from).value + |needle|] <= u
    ensures Find(u, needle, from) == Find(s, needle, from)
  {
    var i := Find(s, needle, from).value;
    forall j | 0 <= j <= i ensures OccursAt(u, needle, j) == OccursAt(s, needle, j) {
      assert u[j..j + |needle|] == u[..i + |needle|][j..j + |needle|];
    }
    assert OccursAt(u, needle, i);
  }

  lemma {:induction false} LiteralTailStable(s: string, rest: string)
    requires LiteralTail(s) < |s|
    ensures LiteralTail(s[..LiteralTail(s)] + rest) == LiteralTail(s)
    decreases |s|
  {
    var n := LiteralTail(s);
    var u := s[..n] + rest;
    if s[0] == '\\' {
      LiteralTailStable(s[2..], rest);
      assert u[2..] == s[2..][..n - 2] + rest;
    } else if s[0] != '"' {
      LiteralTailStable(s[1..], rest);
      assert u[1..] == s[1..][..n - 1] + rest;
    }
  }

  lemma {:induction false} HashRunStable(s: string, u: string)
    requires HashRun(s) < |s| && s[..HashRun(s) + 1] <= u
    ensures HashRun(u) == HashRun(s)
  {
    if s[0] == '#' {
      assert s[1..][..HashRun(s[1..]) + 1] == s[..HashRun(s) + 1][1..];
      HashRunStable(s[1..], u[1..]);
    }
  }

  lemma RawStable(s: string, rest: string)
    requires RawLength(s).Some?
    requires RawLength(s).value < |s| || rest == []
    ensures RawLength(s[..RawLength(s).value] + rest) == RawLength(s)
  {
    hide Find, HashRun, Hashes, OccursAt;
    var h := HashRun(s[1..]);
    var n := RawLength(s).value;
    var u := s[..n] + rest;
    if n == |s| {
      assert u == s;
    } else {
      FindStable(s, u, "\"" + Hashes(h), 2 + h);
      assert s[1..][..h + 1] == s[..h + 2][1..] == u[..h + 2][1..] == u[1..][..h + 1];
      HashRunStable(s[1..], u[1..]);
      assert u[0] == 'r' && u[1 + h] == '"';
    }
  }

  lemma QuotedStable(s: string, rest: string)
    requires s != [] && QuotedLength(s).Some?
    requires QuotedLength(s).value < |s| || rest == []
    ensures QuotedLength(s[..QuotedLength(s).value] + rest) == QuotedLength(s)
  {
    var n := QuotedLength(s).value;
    var u := s[..n] + rest;
    if RawLength(s).Some? {
      RawStable(s, rest);
    } else if n == |s| {
      assert u == s;
    } else {
      LiteralTailStable(s[1..], rest);
      assert u[1..] == s[1..][..n - 1] + rest;
    }
  }

  lemma OrdinaryToken(s: string)
    requires s != [] && s[0] != 'r' && s[0] != '"' && s[0] != '/'
    ensures FirstToken(s) == Token(Plain, 1)
  {
  }

  lemma StrippedEmpty()
    ensures Stripped([]) == []
  {
  }

  lemma StrippedHash(s: string)
    requires s != [] && s[0] == '#'
    ensures Stripped(s) == ['#'] + Stripped(s[1..])
  {
    hide FirstToken;
    OrdinaryToken(s);
  }

  /** Up to the first character that is not a hash, stripping changes a text at most by blanking that character. */
  lemma {:induction false} StrippedHead(s: string)
    ensures HashRun(Stripped(s)) == HashRun(s)
    ensures var h := HashRun(s);
            h < |s| ==> Stripped(s)[h] == s[h] || Stripped(s)[h] == ' '
    decreases |s|
  {
    hide FirstToken, Stripped;
    if s == [] {
      StrippedEmpty();
    } else if s[0] == '#' {
      StrippedHash(s);
      StrippedHead(s[1..]);
      assert Stripped(s)[1..] == Stripped(s[1..]);
    } else {
      StrippedKeepsNewlines(s, 0);
    }
  }

  /** A plain character starts neither a raw string nor a comment once the rest is stripped. */
  lemma PlainSurvives(s: string, rest: string)
    requires s != [] && FirstToken(s) == Token(Plain, 1) && rest == Stripped(s[1..])
    ensures FirstToken([s[0]] + rest) == Token(Plain, 1)
  {
    hide LineLength, BlockLength, LiteralTail, Find, Stripped, HashRun;
    var u := [s[0]] + rest;
    assert u[1..] == rest;
    StrippedHead(s[1..]);
    if |s| > 1 { StrippedKeepsNewlines(s[1..], 0); }
    assert RawLength(s).None?;
    assert RawLength(u).None?;
  }

  /** A token that is not a comment is read the same way in the stripped text. */
  lemma TokenSurvives(s: string)
    requires s != [] && FirstToken(s).kind != Comment
    ensures FirstToken(Stripped(s)) == FirstToken(s)
  {
    hide QuotedLength, LineLength, BlockLength;
    var t := FirstToken(s);
    var rest := Stripped(s[t.length..]);
    assert Stripped(s) == s[..t.length] + rest;
    if t.kind == Quoted {
      QuotedStable(s, rest);
    } else {
      PlainSurvives(s, rest);
      assert s[..1] == [s[0]];
    }
  }

  /** Blank text is read one character at a time and stays as it is. */
  lemma {:induction false} BlankPrefix(blank: string, rest: string, base: nat)
    requires forall i :: 0 <= i < |blank| ==> blank[i] == ' ' || blank[i] == '\n'
    ensures Stripped(blank + rest) == blank + Stripped(rest)
    ensures QuotedSpans(blank + rest, base) == QuotedSpans(rest, base + |blank|)
    ensures CommentFree(rest) ==> CommentFree(blank + rest)
    decreases |blank|
  {
    hide FirstToken, Stripped, QuotedSpans, CommentFree;
    if blank == [] {
      assert blank + rest == rest;
    } else {
      var u := blank + rest;
      assert u[1..] == blank[1..] + rest && u[0] == blank[0];
      OrdinaryToken(u);
      StrippedUnfold(u);
      ScanUnfold(u, base);
      BlankPrefix(blank[1..], rest, base + 1);
      assert u[..1] == blank[..1];
    }
  }

  /** The positions of the quoted tokens. */
  function QuotedSpans(s: string, base: nat): (spans: seq<Span>)
    decreases |s|
  {
    if s == [] then []
    else
      var t := FirstToken(s);
      (if t.kind == Quoted then [Span(Quoted, base, base + t.length)] else [])
      + QuotedSpans(s[t.length..], base + t.length)
  }

  /** No scan of the text meets a comment outside a quoted token. */
  ghost predicate CommentFree(s: string)
    decreases |s|
  {
    s == [] || (FirstToken(s).kind != Comment && CommentFree(s[FirstToken(s).length..]))
  }

  lemma StrippedUnfold(s: string)
    requires s != []
    ensures var t := FirstToken(s);
            Stripped(s) == (if t.kind == Comment then Blank(s[..t.length]) else s[..t.length]) + Stripped(s[t.length..])
  {
    hide FirstToken;
  }

  lemma ScanUnfold(s: string, base: nat)
    requires s != []
    ensures var t := FirstToken(s);
            && QuotedSpans(s, base) == (if t.kind == Quoted then [Span(Quoted, base, base + t.length)] else [])
                                       + QuotedSpans(s[t.length..], base + t.length)
            && (CommentFree(s) <==> t.kind != Comment && CommentFree(s[t.length..]))
  {
    hide FirstToken;
  }

  lemma ScanEmpty(base: nat)
    ensures Stripped([]) == [] && QuotedSpans([], base) == [] && CommentFree([])
  {
  }

  /** Rescanning a stripped text meets no comment and the very same quoted tokens. */
  lemma {:induction false} RescanStripped(s: string, base: nat)
    ensures CommentFree(Stripped(s))
    ensures QuotedSpans(Stripped(s), base) == QuotedSpans(s, base)
    decreases |s|
  {
    hide FirstToken, Stripped, QuotedSpans, CommentFree;
    if s == [] {
      ScanEmpty(base);
    } else {
      var t := FirstToken(s);
      var rest := s[t.length..];
      RescanStripped(rest, base + t.length);
      StrippedUnfold(s);
      ScanUnfold(s, base);
      if t.kind == Comment {
        BlankPrefix(Blank(s[..t.length]), Stripped(rest), base);
      } else {
        TokenSurvives(s);
        ScanUnfold(Stripped(s), base);
        assert Stripped(s)[t.length..] == Stripped(rest);
      }
    }
  }

  lemma {:induction false} CommentFreeFixed(s: string)
    requires CommentFree(s)
    ensures Stripped(s) == s
    decreases |s|
  {
    hide FirstToken;
    if s != [] {
      CommentFreeFixed(s[FirstToken(s).length..]);
    }
  }

  lemma StrippedIdempotent(s: string)
    ensures Stripped(Stripped(s)) == Stripped(s)
  {
    RescanStripped(s, 0);
    CommentFreeFixed(Stripped(s));
  }

  // ---------------------------------------------------------------- the end of an item

  /** Length of the rest of a brace block entered `depth` times, skipping quoted tokens. */
  function BraceLength(s: string, depth: nat): (n: nat)
    ensures n <= |s|
    decreases |s|
  {
    if s == [] || depth == 0 then 0
    else if QuotedLength(s).Some? then
      var q := QuotedLength(s).value;
      q + BraceLength(s[q..], depth)
    else
      1 + BraceLength(s[1..], BraceStep(depth, s[0]))
  }

  function BraceStep(depth: nat, c: char): (d: nat)
    requires depth > 0
  {
    if c == '{' then depth + 1 else if c == '}' then depth - 1 else depth
  }

  datatype Nesting = Nesting(parens: nat, brackets: nat) {
    function Step(c: char): (n: Nesting) {
      if c == '(' then Nesting(parens + 1, brackets)
      else if c == ')' then Nesting(if parens == 0 then 0 else parens - 1, brackets)
      else if c == '[' then Nesting(parens, brackets + 1)
      else if c == ']' then Nesting(parens, if brackets == 0 then 0 else brackets - 1)
      else this
    }

    predicate Top() { parens == 0 && brackets == 0 }
  }

  function ItemLength(s: string, at: Nesting): (n: nat)
    ensures n <= |s|
    decreases |s|
  {
    if s == [] then 0
    else if QuotedLength(s).Some? then
      var q := QuotedLength(s).value;
      q + ItemLength(s[q..], at)
    else if s[0] == ';' && at.Top() then 1
    else if s[0] == '{' && at.Top() then 1 + BraceLength(s[1..], 1)
    else 1 + ItemLength(s[1..], at.Step(s[0]))
  }

  datatype CodeChar = CodeChar(symbol: char, pos: nat)

  /** The characters outside quoted tokens, with their positions. */
  function Code(s: string, base: nat): (code: seq<CodeChar>)
    decreases |s|
  {
    if s == [] then []
    else if QuotedLength(s).Some? then
      var q := QuotedLength(s).value;
      Code(s[q..], base + q)
    else
      [CodeChar(s[0], base)] + Code(s[1..], base + 1)
  }

  /** Braces opened minus braces closed over the first `k` characters of the code. */
  function Balance(code: seq<CodeChar>, k: nat): (b: int)
    requires k <= |code|
  {
    if k == 0 then 0
    else (if code[0].symbol == '{' then 1 else if code[0].symbol == '}' then -1 else 0) + Balance(code[1..], k - 1)
  }

  /** The `k`-th code character is the first to close as many braces as were open. */
  ghost predicate FirstClose(code: seq<CodeChar>, depth: nat, k: nat) {
    && k < |code|
    && depth + Balance(code, k + 1) == 0
    && forall j {:trigger Balance(code, j)} :: 0 <= j <= k ==> depth + Balance(code, j) > 0
  }

  /** Where a block closes, its length ends just past the first balancing brace. */
  lemma {:induction false} BraceLengthAtClose(s: string, base: nat, depth: nat, k: nat)
    requires FirstClose(Code(s, base), depth, k)
    ensures base + BraceLength(s, depth) == Code(s, base)[k].pos + 1
    ensures Code(s, base)[k].symbol == '}'
    decreases |s|
  {
    hide QuotedLength;
    var code := Code(s, base);
    assert depth + Balance(code, 0) > 0;
    if QuotedLength(s).Some? {
      var q := QuotedLength(s).value;
      BraceLengthAtClose(s[q..], base + q, depth, k);
    } else {
      var d := BraceStep(depth, s[0]);
      assert code[1..] == Code(s[1..], base + 1);
      assert Balance(code[1..], 0) == 0;
      if k > 0 {
        forall j | 0 <= j <= k - 1 ensures d + Balance(code[1..], j) > 0 {
          assert depth + Balance(code, j + 1) > 0;
        }
        BraceLengthAtClose(s[1..], base + 1, d, k - 1);
      }
    }
  }

  /** A block that never closes runs to the end of the text. */
  lemma {:induction false} BraceLengthUnclosed(s: string, base: nat, depth: nat)
    requires forall j {:trigger Balance(Code(s, base), j)} ::
               0 <= j <= |Code(s, base)| ==> depth + Balance(Code(s, base), j) > 0
    ensures BraceLength(s, depth) == |s|
    decreases |s|
  {
    hide QuotedLength;
    var code := Code(s, base);
    assert depth + Balance(code, 0) > 0;
    if s != [] {
      if QuotedLength(s).Some? {
        var q := QuotedLength(s).value;
        BraceLengthUnclosed(s[q..], base + q, depth);
      } else {
        var d := BraceStep(depth, s[0]);
        assert code[1..] == Code(s[1..], base + 1);
        forall j | 0 <= j <= |code[1..]| ensures d + Balance(code[1..], j) > 0 {
          assert depth + Balance(code, j + 1) > 0;
        }
        BraceLengthUnclosed(s[1..], base + 1, d);
      }
    }
  }

  /** Parenthesis and bracket nesting in front of the `k`-th code character. */
  function NestingAt(code: seq<CodeChar>, at: Nesting, k: nat): (n: Nesting)
    requires k <= |code|
  {
    if k == 0 then at else NestingAt(code[1..], at.Step(code[0].symbol), k - 1)
  }

  ghost predicate Cuts(code: seq<CodeChar>, at: Nesting, k: nat)
    requires k < |code|
  {
    (code[k].symbol == ';' || code[k].symbol == '{') && NestingAt(code, at, k).Top()
  }

  /** An item ends at its first top-level semicolon or at the block its first top-level brace opens. */
  lemma {:induction false} ItemLengthAtCut(s: string, base: nat, at: Nesting, k: nat)
    requires k < |Code(s, base)| && Cuts(Code(s, base), at, k)
    requires forall j :: 0 <= j < k ==> !Cuts(Code(s, base), at, j)
    ensures var c := Code(s, base)[k];
            base <= c.pos < base + |s| &&
            ItemLength(s, at) == c.pos - base + 1 +
                                 (if c.symbol == ';' then 0 else BraceLength(s[c.pos - base + 1..], 1))
    decreases |s|
  {
    hide QuotedLength, BraceLength;
    var code := Code(s, base);
    if QuotedLength(s).Some? {
      var q := QuotedLength(s).value;
      ItemLengthAtCut(s[q..], base + q, at, k);
      assert s[q..][code[k].pos - base - q + 1..] == s[code[k].pos - base + 1..];
    } else if k > 0 {
      assert code[1..] == Code(s[1..], base + 1);
      assert !Cuts(code, at, 0);
      var next := at.Step(s[0]);
      forall j | 0 <= j < k - 1 ensures !Cuts(code[1..], next, j) {
        assert !Cuts(code, at, j + 1);
      }
      assert Cuts(code[1..], next, k - 1);
      ItemLengthAtCut(s[1..], base + 1, next, k - 1);
      assert s[1..][code[k].pos - base - 1 + 1..] == s[code[k].pos - base + 1..];
    }
  }

  lemma {:induction false} ItemLengthUncut(s: string, base: nat, at: Nesting)
    requires forall j :: 0 <= j < |Code(s, base)| ==> !Cuts(Code(s, base), at, j)
    ensures ItemLength(s, at) == |s|
    decreases |s|
  {
    hide QuotedLength;
    if s != [] {
      var code := Code(s, base);
      if QuotedLength(s).Some? {
        var q := QuotedLength(s).value;
        ItemLengthUncut(s[q..], base + q, at);
      } else {
        assert code[1..] == Code(s[1..], base + 1);
        assert !Cuts(code, at, 0);
        forall j | 0 <= j < |code[1..]| ensures !Cuts(code[1..], at.Step(s[0]), j) {
          assert !Cuts(code, at, j + 1);
        }
        ItemLengthUncut(s[1..], base + 1, at.Step(s[0]));
      }
    }
  }
}
