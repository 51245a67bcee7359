/**
 The path-pattern compiler of tools/applicable_qualification.py: what it emits, what the emitted
 regular expression matches, and what a pattern means without regular expressions.
 */
module Glob {
  import opened Wrappers
  import Text

  // ---------------------------------------------------------------- the compiler

  /** The characters that stripping removes from the ends of a text. */
  predicate Space(c: char) {
    c in "\t\n\r \U{b}\U{c}\U{1c}\U{1d}\U{1e}\U{1f}\U{85}\U{a0}\U{1680}\U{2028}\U{2029}\U{202f}\U{205f}\U{3000}" ||
    '\U{2000}' <= c <= '\U{200a}'
  }

  /** The characters that the host language's escaping puts a backslash in front of. */
  predicate Special(c: char) { c in "()[]{}?*+-|^$\\.&~# \t\n\r\U{b}\U{c}" }

  function Escape(c: char): string { if Special(c) then ['\\', c] else [c] }

  /** Patterns the compiler accepts: nonempty, unpadded, without classes and alternations. */
  predicate Supported(pattern: string) {
    && pattern != "" && !Space(pattern[0]) && !Space(pattern[|pattern| - 1])
    && '[' !in pattern && ']' !in pattern && '{' !in pattern && '}' !in pattern
  }

  predicate DoubleStar(pattern: string) { |pattern| >= 2 && pattern[0] == '*' && pattern[1] == '*' }

  function Emitted(pattern: string): (text: string)
    decreases |pattern|
  {
    if pattern == [] then ""
    else if DoubleStar(pattern) then ".*" + Emitted(pattern[2..])
    else if pattern[0] == '*' then "[^/]*" + Emitted(pattern[1..])
    else if pattern[0] == '?' then "[^/]" + Emitted(pattern[1..])
    else Escape(pattern[0]) + Emitted(pattern[1..])
  }

  lemma Associative(a: string, b: string, c: string)
    ensures a + b + c == a + (b + c)
  {
  }

  lemma EmittedEnd(pattern: string)
    requires pattern == []
    ensures Emitted(pattern) == ""
  {
  }

  lemma EmittedStep(pattern: string, index: nat)
    requires index < |pattern|
    ensures Emitted(pattern[index..]) ==
            if pattern[index] == '*' && index + 1 < |pattern| && pattern[index + 1] == '*' then
              ".*" + Emitted(pattern[index + 2..])
            else (if pattern[index] == '*' then "[^/]*"
                  else if pattern[index] == '?' then "[^/]"
                  else Escape(pattern[index]))
                 + Emitted(pattern[index + 1..])
  {
    var rest := pattern[index..];
    assert rest[1..] == pattern[index + 1..];
    if index + 1 < |pattern| { assert rest[2..] == pattern[index + 2..]; }
  }

  method GlobRegex(pattern: string) returns (r: Result<string>)
    ensures r == CompiledGlob(pattern)
  {
    if pattern == "" || Space(pattern[0]) || Space(pattern[|pattern| - 1]) {
      return Err("invalid empty/whitespace path pattern");
    }
    if '[' in pattern || ']' in pattern || '{' in pattern || '}' in pattern {
      return Err("unsupported path-pattern syntax");
    }
    hide Emitted, Special, Space, Escape;
    var result := "^";
    var index := 0;
    assert pattern[0..] == pattern;
    while index < |pattern|
      invariant index <= |pattern|
      invariant result + Emitted(pattern[index..]) == "^" + Emitted(pattern)
    {
      EmittedStep(pattern, index);
      var c := pattern[index];
      if c == '*' {
        if index + 1 < |pattern| && pattern[index + 1] == '*' {
          index := index + 1;
          Associative(result, ".*", Emitted(pattern[index + 1..]));
          result := result + ".*";
        } else {
          Associative(result, "[^/]*", Emitted(pattern[index + 1..]));
          result := result + "[^/]*";
        }
      } else if c == '?' {
        Associative(result, "[^/]", Emitted(pattern[index + 1..]));
        result := result + "[^/]";
      } else {
        Associative(result, Escape(c), Emitted(pattern[index + 1..]));
        result := result + Escape(c);
      }
      index := index + 1;
    }
    assert Emitted(pattern[index..]) == "" by { EmittedEnd(pattern[index..]); }
    assert result + "" == result;
    r := Ok(result + "$");
  }

  function CompiledGlob(pattern: string): (r: Result<string>) {
    if Supported(pattern) then Ok("^" + Emitted(pattern) + "$")
    else if pattern == "" || Space(pattern[0]) || Space(pattern[|pattern| - 1]) then
      Err("invalid empty/whitespace path pattern")
    else Err("unsupported path-pattern syntax")
  }

  // ---------------------------------------------------------------- the language of a regular expression

  datatype Class = AnyButNewline | NotSlash | Exactly(c: char)

  predicate InClass(cls: Class, c: char) {
    match cls
    case AnyButNewline => c != '\n'
    case NotSlash => c != '/'
    case Exactly(x) => c == x
  }

  datatype Item = Item(cls: Class, starred: bool)

  /** Characters with a meaning of their own outside classes. */
  predicate Meta(c: char) { c in ".^$*+?{}[]\\|()" }

  /** One character class at the start of a regular expression, and its length. */
  function ParseClass(text: string): (r: Option<(Class, nat)>)
    ensures r.Some? ==> 0 < r.value.1 <= |text|
  {
    if text == [] then None
    else if text[0] == '.' then Some((AnyButNewline, 1))
    else if |text| >= 4 && text[..4] == "[^/]" then Some((NotSlash, 4))
    else if text[0] == '\\' then
      if |text| >= 2 && Special(text[1]) then Some((Exactly(text[1]), 2)) else None
    else if Meta(text[0]) then None
    else Some((Exactly(text[0]), 1))
  }

  /** The sequence of possibly starred classes that a regular expression without anchors denotes. */
  function ParseItems(text: string): (r: Option<seq<Item>>)
    decreases |text|
  {
    if text == [] then Some([])
    else
      match ParseClass(text)
      case None => None
      case Some((cls, n)) =>
        var starred := n < |text| && text[n] == '*';
        match ParseItems(text[if starred then n + 1 else n..])
        case None => None
        case Some(rest) => Some([Item(cls, starred)] + rest)
  }

  function ParseRegex(text: string): (r: Option<seq<Item>>) {
    if |text| >= 2 && text[0] == '^' && text[|text| - 1] == '$' then ParseItems(text[1..|text| - 1]) else None
  }

  /** The texts that match a sequence of items as a whole. */
  ghost predicate InLanguage(items: seq<Item>, s: string)
    decreases |items|
  {
    if items == [] then s == []
    else if items[0].starred then
      exists k :: 0 <= k <= |s| && AllIn(items[0].cls, s[..k]) && InLanguage(items[1..], s[k..])
    else s != [] && InClass(items[0].cls, s[0]) && InLanguage(items[1..], s[1..])
  }

  predicate AllIn(cls: Class, s: string) { forall i :: 0 <= i < |s| ==> InClass(cls, s[i]) }

  // ---------------------------------------------------------------- the meaning of a pattern

  /** Matching a path directly: `**` spans directories, `*` and `?` stay inside one. */
  predicate GlobMatch(pattern: string, s: string)
    decreases |pattern|, |s|
  {
    if pattern == [] then s == []
    else if DoubleStar(pattern) then
      GlobMatch(pattern[2..], s) || (s != [] && s[0] != '\n' && GlobMatch(pattern, s[1..]))
    else if pattern[0] == '*' then
      GlobMatch(pattern[1..], s) || (s != [] && s[0] != '/' && GlobMatch(pattern, s[1..]))
    else s != [] && (if pattern[0] == '?' then s[0] != '/' else s[0] == pattern[0]) && GlobMatch(pattern[1..], s[1..])
  }

  /** The items a pattern stands for. */
  function ItemsOf(pattern: string): (items: seq<Item>)
    decreases |pattern|
  {
    if pattern == [] then []
    else if DoubleStar(pattern) then [Item(AnyButNewline, true)] + ItemsOf(pattern[2..])
    else if pattern[0] == '*' then [Item(NotSlash, true)] + ItemsOf(pattern[1..])
    else if pattern[0] == '?' then [Item(NotSlash, false)] + ItemsOf(pattern[1..])
    else [Item(Exactly(pattern[0]), false)] + ItemsOf(pattern[1..])
  }

  lemma EmittedNotStarred(pattern: string)
    ensures Emitted(pattern) != [] ==> Emitted(pattern)[0] != '*'
  {
  }

  lemma ParseItemsStep(prefix: string, rest: string, cls: Class, starred: bool)
    requires prefix != [] && (rest != [] ==> rest[0] != '*')
    requires starred ==> prefix[|prefix| - 1] == '*'
    requires ParseClass(prefix + rest) == Some((cls, if starred then |prefix| - 1 else |prefix|))
    ensures ParseItems(prefix + rest) ==
            match ParseItems(rest)
            case None => None
            case Some(items) => Some([Item(cls, starred)] + items)
  {
    var text := prefix + rest;
    assert text[|prefix|..] == rest;
    hide ParseClass;
  }

  /** Reading the emitted text back gives exactly the items of the pattern. */
  lemma {:induction false} ParseEmitted(pattern: string)
    ensures ParseItems(Emitted(pattern)) == Some(ItemsOf(pattern))
    decreases |pattern|
  {
    if pattern != [] {
      var n := if DoubleStar(pattern) then 2 else 1;
      var rest := Emitted(pattern[n..]);
      ParseEmitted(pattern[n..]);
      EmittedNotStarred(pattern[n..]);
      if DoubleStar(pattern) {
        ParseItemsStep(".*", rest, AnyButNewline, true);
      } else if pattern[0] == '*' {
        assert ("[^/]*" + rest)[..4] == "[^/]";
        ParseItemsStep("[^/]*", rest, NotSlash, true);
      } else if pattern[0] == '?' {
        assert ("[^/]" + rest)[..4] == "[^/]";
        ParseItemsStep("[^/]", rest, NotSlash, false);
      } else {
        EscapedClass(pattern[0], rest);
        ParseItemsStep(Escape(pattern[0]), rest, Exactly(pattern[0]), false);
      }
    }
  }

  lemma EscapedClass(c: char, rest: string)
    ensures ParseClass(Escape(c) + rest) == Some((Exactly(c), |Escape(c)|))
  {
    var text := Escape(c) + rest;
    if Special(c) {
      assert text[0] == '\\' && text[1] == c;
      assert text[0] != '[';
    } else {
      assert text[0] == c && c != '[' && c != '.' && c != '\\' && !Meta(c);
      if |text| >= 4 { assert text[..4][0] == c; }
    }
  }

  /** A star takes a run of characters of its class: none, or one and then more. */
  lemma StarUnfold(items: seq<Item>, s: string)
    requires items != [] && items[0].starred
    ensures InLanguage(items, s) <==>
            InLanguage(items[1..], s) || (s != [] && InClass(items[0].cls, s[0]) && InLanguage(items, s[1..]))
  {
    hide InClass, AllIn;
    var cls := items[0].cls;
    RunSlices(cls, s, 0);
    if InLanguage(items, s) {
      var k :| 0 <= k <= |s| && AllIn(cls, s[..k]) && InLanguage(items[1..], s[k..]);
      RunSlices(cls, s, k);
    }
    if s != [] && InClass(cls, s[0]) && InLanguage(items, s[1..]) {
      var k :| 0 <= k <= |s[1..]| && AllIn(cls, s[1..][..k]) && InLanguage(items[1..], s[1..][k..]);
      RunSlices(cls, s, k + 1);
    }
  }

  lemma RunSlices(cls: Class, s: string, k: nat)
    requires k <= |s|
    ensures k == 0 ==> s[k..] == s && AllIn(cls, s[..k])
    ensures k > 0 ==> s[k..] == s[1..][k - 1..] &&
                      (AllIn(cls, s[..k]) <==> InClass(cls, s[0]) && AllIn(cls, s[1..][..k - 1]))
  {
    hide InClass;
    if k > 0 {
      assert s[..k] == [s[0]] + s[1..][..k - 1];
      if AllIn(cls, s[..k]) {
        assert InClass(cls, s[..k][0]);
        var tail := s[1..][..k - 1];
        forall i | 0 <= i < |tail| ensures InClass(cls, tail[i]) {
          assert InClass(cls, s[..k][i + 1]);
        }
      }
    }
  }

  lemma {:induction false} ItemsMean(pattern: string, s: string)
    ensures InLanguage(ItemsOf(pattern), s) <==> GlobMatch(pattern, s)
    decreases |pattern|, |s|
  {
    hide InClass;
    if pattern != [] {
      var items := ItemsOf(pattern);
      var n := if DoubleStar(pattern) then 2 else 1;
      assert items[1..] == ItemsOf(pattern[n..]);
      if pattern[0] == '*' {
        StarUnfold(items, s);
        ItemsMean(pattern[n..], s);
        if s != [] { ItemsMean(pattern, s[1..]); ClassOf(pattern, s[0]); }
      } else if s != [] {
        ItemsMean(pattern[1..], s[1..]);
        ClassOf(pattern, s[0]);
      }
    }
  }

  lemma ClassOf(pattern: string, c: char)
    requires pattern != []
    ensures InClass(ItemsOf(pattern)[0].cls, c) ==
            if DoubleStar(pattern) then c != '\n'
            else if pattern[0] == '*' || pattern[0] == '?' then c != '/' else c == pattern[0]
    ensures ItemsOf(pattern)[0].starred == (pattern[0] == '*')
  {
  }

  /** The compiler preserves meaning: the emitted expression matches a path exactly when the pattern does. */
  lemma CompilerPreservesMeaning(pattern: string, s: string)
    requires CompiledGlob(pattern).Ok?
    ensures var items := ParseRegex(CompiledGlob(pattern).value);
            items.Some? && (InLanguage(items.value, s) <==> GlobMatch(pattern, s))
  {
    hide InLanguage, GlobMatch;
    var text := "^" + Emitted(pattern) + "$";
    assert text[1..|text| - 1] == Emitted(pattern);
    ParseEmitted(pattern);
    ItemsMean(pattern, s);
  }

  // ---------------------------------------------------------------- patterns segment by segment

  predicate NoDoubleStar(pattern: string) {
    forall i :: 0 <= i < |pattern| - 1 ==> !(pattern[i] == '*' && pattern[i + 1] == '*')
  }

  /** A pattern without slashes and double stars matches only paths without slashes. */
  lemma {:induction false} SegmentStays(pattern: string, s: string)
    requires NoDoubleStar(pattern) && '/' !in pattern && GlobMatch(pattern, s)
    ensures '/' !in s
    decreases |pattern|, |s|
  {
    if pattern != [] {
      if pattern[0] == '*' {
        if GlobMatch(pattern[1..], s) { SegmentStays(pattern[1..], s); } else { SegmentStays(pattern, s[1..]); }
      } else {
        SegmentStays(pattern[1..], s[1..]);
      }
    }
  }

  /** The path splits at a slash into a part for the segment and a part for the rest. */
  ghost predicate SplitsAt(seg: string, rest: string, s: string, k: nat) {
    k < |s| && s[k] == '/' && '/' !in s[..k] && GlobMatch(seg, s[..k]) && GlobMatch(rest, s[k + 1..])
  }

  lemma {:induction false} MatchSplits(seg: string, rest: string, s: string) returns (k: nat)
    requires NoDoubleStar(seg) && '/' !in seg && GlobMatch(seg + "/" + rest, s)
    ensures SplitsAt(seg, rest, s, k)
    decreases |seg|, |s|
  {
    var p := seg + "/" + rest;
    if seg == [] {
      assert p[1..] == rest;
      k := 0;
    } else {
      assert p[1..] == seg[1..] + "/" + rest && p[0] == seg[0];
      assert !DoubleStar(p) && !DoubleStar(seg);
      if seg[0] == '*' && GlobMatch(p[1..], s) {
        k := MatchSplits(seg[1..], rest, s);
      } else if seg[0] == '*' {
        k := MatchSplits(seg, rest, s[1..]);
        SplitShift(seg, seg, rest, s, k);
        k := k + 1;
      } else {
        k := MatchSplits(seg[1..], rest, s[1..]);
        SplitShift(seg[1..], seg, rest, s, k);
        k := k + 1;
      }
    }
  }

  lemma SplitShift(inner: string, seg: string, rest: string, s: string, k: nat)
    requires seg != [] && s != [] && !DoubleStar(seg) && SplitsAt(inner, rest, s[1..], k) && s[0] != '/'
    requires || (seg[0] == '*' && inner == seg)
             || (seg[0] != '*' && inner == seg[1..] && (seg[0] == '?' || s[0] == seg[0]))
    ensures SplitsAt(seg, rest, s, k + 1)
  {
    assert s[..k + 1][1..] == s[1..][..k] && s[..k + 1][0] == s[0];
    assert s[1..][k + 1..] == s[k + 2..];
    assert s[..k + 1] == [s[0]] + s[1..][..k];
  }

  lemma {:induction false} SplitsMatch(seg: string, rest: string, s: string, k: nat)
    requires NoDoubleStar(seg) && '/' !in seg && SplitsAt(seg, rest, s, k)
    ensures GlobMatch(seg + "/" + rest, s)
    decreases |seg|, |s|
  {
    var p := seg + "/" + rest;
    if seg == [] {
      assert p[1..] == rest && k == 0;
    } else {
      assert p[1..] == seg[1..] + "/" + rest && p[0] == seg[0];
      assert !DoubleStar(p) && !DoubleStar(seg);
      if seg[0] == '*' && GlobMatch(seg[1..], s[..k]) {
        SplitsMatch(seg[1..], rest, s, k);
      } else {
        assert k > 0 && s[..k][1..] == s[1..][..k - 1] && s[1..][k..] == s[k + 1..] && s[0] == s[..k][0];
        SplitsMatch(if seg[0] == '*' then seg else seg[1..], rest, s[1..], k - 1);
      }
    }
  }

  /** The parts of a path match the segments of a pattern one by one. */
  ghost predicate SegmentsMatch(patterns: seq<string>, parts: seq<string>) {
    |patterns| == |parts| && forall i :: 0 <= i < |parts| ==> GlobMatch(patterns[i], parts[i])
  }

  lemma {:induction false} FirstSlash(s: string) returns (k: nat)
    ensures k <= |s| && '/' !in s[..k] && (k < |s| ==> s[k] == '/')
  {
    k := 0;
    while k < |s| && s[k] != '/'
      invariant k <= |s| && '/' !in s[..k]
    {
      k := k + 1;
    }
  }

  lemma SplitFirst(s: string, k: nat)
    requires k < |s| && s[k] == '/' && '/' !in s[..k]
    ensures Text.Split(s, '/') == [s[..k]] + Text.Split(s[k + 1..], '/')
  {
    Text.SplitAfter(s[..k], s[k + 1..], '/');
    assert s == s[..k] + ['/'] + s[k + 1..];
  }

  /**
   Without double stars, a path matches exactly when it has as many segments as the pattern and
   they match pairwise.
   */
  lemma {:induction false} MatchBySegments(pattern: string, s: string)
    requires NoDoubleStar(pattern)
    ensures GlobMatch(pattern, s) <==> SegmentsMatch(Text.Split(pattern, '/'), Text.Split(s, '/'))
    decreases |pattern|
  {
    var k := FirstSlash(pattern);
    var j := FirstSlash(s);
    if k == |pattern| {
      assert pattern[..k] == pattern;
      Text.SplitOne(pattern, '/');
      if j == |s| {
        assert s[..j] == s;
        Text.SplitOne(s, '/');
        SegmentsStep(pattern, s, [], []);
        assert [pattern] + [] == [pattern] && [s] + [] == [s];
      } else {
        SplitFirst(s, j);
        if GlobMatch(pattern, s) { SegmentStays(pattern, s); }
      }
    } else {
      var seg, rest := pattern[..k], pattern[k + 1..];
      assert pattern == seg + "/" + rest;
      SplitFirst(pattern, k);
      if j == |s| {
        assert s[..j] == s;
        Text.SplitOne(s, '/');
        NoSplit(seg, rest, s);
      } else {
        SplitFirst(s, j);
        MatchBySegments(rest, s[j + 1..]);
        if GlobMatch(pattern, s) {
          var m := MatchSplits(seg, rest, s);
          FirstSlashUnique(s, j, m);
        }
        SegmentsStep(seg, s[..j], Text.Split(rest, '/'), Text.Split(s[j + 1..], '/'));
        if SplitsAt(seg, rest, s, j) { SplitsMatch(seg, rest, s, j); }
      }
    }
  }

  lemma NoSplit(seg: string, rest: string, s: string)
    requires NoDoubleStar(seg) && '/' !in seg && '/' !in s
    ensures !GlobMatch(seg + "/" + rest, s)
  {
    if GlobMatch(seg + "/" + rest, s) {
      var m := MatchSplits(seg, rest, s);
      assert false;
    }
  }

  lemma FirstSlashUnique(s: string, j: nat, m: nat)
    requires j < |s| && m < |s| && s[j] == '/' == s[m] && '/' !in s[..j] && '/' !in s[..m]
    ensures j == m
  {
    if j < m { SlashIn(s, j, m); }
    if m < j { SlashIn(s, m, j); }
  }

  lemma SlashIn(s: string, i: nat, n: nat)
    requires i < n <= |s| && s[i] == '/'
    ensures '/' in s[..n]
  {
    assert s[..n][i] == '/';
  }

  lemma SegmentsStep(a: string, b: string, patterns: seq<string>, parts: seq<string>)
    ensures SegmentsMatch([a] + patterns, [b] + parts) <==> GlobMatch(a, b) && SegmentsMatch(patterns, parts)
  {
    hide GlobMatch;
    var ps, ss := [a] + patterns, [b] + parts;
    if SegmentsMatch(ps, ss) {
      assert GlobMatch(ps[0], ss[0]);
      forall i | 0 <= i < |parts| ensures GlobMatch(patterns[i], parts[i]) {
        assert GlobMatch(ps[i + 1], ss[i + 1]);
      }
    }
  }
}
