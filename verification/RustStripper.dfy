/** The scanners of tools/check_namespaces.py: they advance a cursor over the text and blank an array in place. */
module RustStripper {
  import opened Wrappers
  import opened RustScanner

  method BlankNonNewlines(characters: array<char>, start: nat, end: nat)
    modifies characters
    ensures forall i :: 0 <= i < characters.Length ==>
              characters[i] == if start <= i < end && old(characters[i]) != '\n' then ' ' else old(characters[i])
  {
    var index := start;
    while index < end && index < characters.Length
      invariant start <= index
      invariant index <= end || index == start
      invariant forall i :: 0 <= i < characters.Length ==>
                  characters[i] == if start <= i < index && old(characters[i]) != '\n' then ' ' else old(characters[i])
    {
      if characters[index] != '\n' {
        characters[index] := ' ';
      }
      index := index + 1;
    }
  }

  method FindFrom(text: string, needle: string, from: nat) returns (index: Option<nat>)
    ensures index == Find(text, needle, from)
  {
    var i := from;
    while i + |needle| <= |text|
      invariant from <= i
      invariant Find(text, needle, i) == Find(text, needle, from)
    {
      if text[i..i + |needle|] == needle {
        return Some(i);
      }
      i := i + 1;
    }
    return None;
  }

  lemma OccursShift(text: string, start: nat, needle: string, j: nat)
    requires start <= |text|
    ensures OccursAt(text[start..], needle, j) <==> OccursAt(text, needle, start + j)
  {
    if start + j + |needle| <= |text| {
      assert text[start..][j..j + |needle|] == text[start + j..start + j + |needle|];
    }
  }

  /** Searching the rest of a text finds the same place: both are the first occurrence. */
  lemma FindShift(text: string, start: nat, needle: string, from: nat)
    requires start <= from <= |text|
    ensures match Find(text, needle, from)
            case None => Find(text[start..], needle, from - start) == None
            case Some(i) => i >= start && Find(text[start..], needle, from - start) == Some(i - start)
  {
    hide Find, OccursAt;
    var rest := text[start..];
    var r, r' := Find(text, needle, from), Find(rest, needle, from - start);
    if r.Some? {
      OccursShift(text, start, needle, r.value - start);
      InText(text, needle, r.value);
    }
    if r'.Some? {
      OccursShift(text, start, needle, r'.value);
      InText(rest, needle, r'.value);
    }
    assert r.Some? ==> r'.Some? && r'.value <= r.value - start;
    assert r'.Some? ==> r.Some? && r.value <= start + r'.value;
  }

  lemma InText(text: string, needle: string, i: nat)
    requires OccursAt(text, needle, i)
    ensures i <= |text|
  {
  }

  method RawStringEnd(text: string, start: nat) returns (end: Option<nat>)
    requires start <= |text|
    ensures match RawLength(text[start..])
            case None => end == None
            case Some(n) => end == Some(start + n)
  {
    hide Find;
    ghost var rest := text[start..];
    if start >= |text| || text[start] != 'r' {
      return None;
    }
    var cursor, hashCount := start + 1, 0;
    assert rest[1..] == text[start + 1..];
    while cursor < |text| && text[cursor] == '#'
      invariant start + 1 <= cursor <= |text| && hashCount == cursor - start - 1
      invariant HashRun(rest[1..]) == hashCount + HashRun(text[cursor..])
    {
      assert text[cursor..][1..] == text[cursor + 1..];
      hashCount, cursor := hashCount + 1, cursor + 1;
    }
    if cursor >= |text| || text[cursor] != '"' {
      return None;
    }
    var terminator := "\"" + Hashes(hashCount);
    var found := FindFrom(text, terminator, cursor + 1);
    FindShift(text, start, terminator, cursor + 1);
    end := Some(if found.None? then |text| else found.value + |terminator|);
  }

  method SkipQuotedToken(text: string, start: nat) returns (end: Option<nat>)
    requires start < |text|
    ensures match QuotedLength(text[start..])
            case None => end == None
            case Some(n) => end == Some(start + n)
  {
    end := RawStringEnd(text, start);
    if end.Some? { return; }
    if text[start] != '"' { return None; }
    var cursor := start + 1;
    assert text[start..][1..] == text[start + 1..];
    while cursor < |text|
      invariant start + 1 <= cursor <= |text| + 1
      invariant start + 1 + LiteralTail(text[start + 1..]) ==
                if cursor <= |text| then cursor + LiteralTail(text[cursor..]) else |text|
    {
      if text[cursor] == '\\' {
        assert cursor + 1 < |text| ==> text[cursor..][2..] == text[cursor + 2..];
        cursor := cursor + 2;
      } else if text[cursor] == '"' {
        return Some(cursor + 1);
      } else {
        assert text[cursor..][1..] == text[cursor + 1..];
        cursor := cursor + 1;
      }
    }
    return Some(|text|);
  }

  lemma BlockStep(text: string, end: nat, depth: nat)
    requires end < |text| && depth > 0
    ensures BlockLength(text[end..], depth) ==
            if OccursAt(text, "/*", end) then 2 + BlockLength(text[end + 2..], depth + 1)
            else if OccursAt(text, "*/", end) then 2 + BlockLength(text[end + 2..], depth - 1)
            else 1 + BlockLength(text[end + 1..], depth)
  {
    var rest := text[end..];
    assert rest[1..] == text[end + 1..];
    if end + 2 <= |text| {
      assert rest[..2] == text[end..end + 2] && rest[2..] == text[end + 2..];
    }
  }

  /** End of the block comment whose opening ends at `start`. */
  method BlockCommentEnd(text: string, start: nat) returns (end: nat)
    requires start <= |text|
    ensures end == start + BlockLength(text[start..], 1)
  {
    hide BlockLength;
    var depth := 1;
    end := start;
    while end < |text| && depth > 0
      invariant start <= end <= |text|
      invariant end + BlockLength(text[end..], depth) == start + BlockLength(text[start..], 1)
    {
      BlockStep(text, end, depth);
      if OccursAt(text, "/*", end) {
        depth, end := depth + 1, end + 2;
      } else if OccursAt(text, "*/", end) {
        depth, end := depth - 1, end + 2;
      } else {
        end := end + 1;
      }
    }
    assert BlockLength(text[end..], depth) == 0 by { BlockDone(text[end..], depth); }
  }

  lemma BlockDone(s: string, depth: nat)
    requires s == [] || depth == 0
    ensures BlockLength(s, depth) == 0 && BraceLength(s, depth) == 0
  {
  }

  /** End of the comment at an unquoted cursor, if one starts there. */
  method CommentEnd(text: string, cursor: nat) returns (end: Option<nat>)
    requires cursor < |text| && QuotedLength(text[cursor..]).None?
    ensures end.None? ==> FirstToken(text[cursor..]) == Token(Plain, 1)
    ensures end.Some? ==> end.value >= cursor && FirstToken(text[cursor..]) == Token(Comment, end.value - cursor)
  {
    hide QuotedLength, LineLength, BlockLength;
    ghost var rest := text[cursor..];
    if cursor + 2 <= |text| {
      assert rest[2..] == text[cursor + 2..] && rest[..2] == text[cursor..cursor + 2];
    }
    if OccursAt(text, "//", cursor) {
      var lineEnd := LineEnd(text, cursor + 2);
      end := Some(lineEnd);
    } else if OccursAt(text, "/*", cursor) {
      var blockEnd := BlockCommentEnd(text, cursor + 2);
      end := Some(blockEnd);
    } else {
      end := None;
    }
  }

  method StripRustComments(text: string) returns (r: string)
    ensures r == Stripped(text)
  {
    hide QuotedLength, Stripped;
    var characters := new char[|text|](i requires 0 <= i < |text| => text[i]);
    var cursor := 0;
    ghost var goal := Stripped(text);
    assert text[0..] == text && goal[0..] == goal;
    while cursor < |text|
      invariant 0 <= cursor <= |text|
      invariant goal[cursor..] == Stripped(text[cursor..])
      invariant forall i :: 0 <= i < cursor ==> characters[i] == goal[i]
      invariant forall i :: cursor <= i < |text| ==> characters[i] == text[i]
    {
      StrippedStep(text, goal, cursor);
      var quotedEnd := SkipQuotedToken(text, cursor);
      if quotedEnd.Some? {
        cursor := quotedEnd.value;
        continue;
      }
      var commentEnd := CommentEnd(text, cursor);
      if commentEnd.Some? {
        BlankNonNewlines(characters, cursor, commentEnd.value);
        cursor := commentEnd.value;
        continue;
      }
      cursor := cursor + 1;
    }
    r := characters[..];
  }

  /** One step of the scan, in absolute positions. */
  lemma StrippedStep(text: string, goal: string, cursor: nat)
    requires cursor < |text| == |goal| && goal[cursor..] == Stripped(text[cursor..])
    ensures var t := FirstToken(text[cursor..]);
            var end := cursor + t.length;
            && end <= |text|
            && goal[end..] == Stripped(text[end..])
            && forall i :: cursor <= i < end ==>
                 goal[i] == if t.kind == Comment && text[i] != '\n' then ' ' else text[i]
  {
    hide FirstToken;
    var rest := text[cursor..];
    var t := FirstToken(rest);
    assert rest[t.length..] == text[cursor + t.length..];
    assert goal[cursor + t.length..] == goal[cursor..][t.length..];
    forall i | cursor <= i < cursor + t.length
      ensures goal[i] == if t.kind == Comment && text[i] != '\n' then ' ' else text[i]
    {
      assert goal[i] == goal[cursor..][i - cursor];
    }
  }

  /** Position of the next newline, or the end of the text. */
  method LineEnd(text: string, start: nat) returns (end: nat)
    requires start <= |text|
    ensures end == start + LineLength(text[start..])
  {
    end := start;
    while end < |text| && text[end] != '\n'
      invariant start <= end <= |text|
      invariant end + LineLength(text[end..]) == start + LineLength(text[start..])
    {
      assert text[end..][1..] == text[end + 1..];
      end := end + 1;
    }
  }

  /** One step of the item scan, in absolute positions. */
  lemma ItemStep(text: string, cursor: nat, at: Nesting)
    requires cursor < |text|
    ensures match QuotedLength(text[cursor..])
            case Some(n) =>
              ItemLength(text[cursor..], at) == n + ItemLength(text[cursor + n..], at)
            case None =>
              ItemLength(text[cursor..], at) == 1 +
                if at.Top() && text[cursor] == ';' then 0
                else if at.Top() && text[cursor] == '{' then BraceLength(text[cursor + 1..], 1)
                else ItemLength(text[cursor + 1..], at.Step(text[cursor]))
  {
    hide QuotedLength, BraceLength;
    var rest := text[cursor..];
    assert rest[1..] == text[cursor + 1..];
    if QuotedLength(rest).Some? {
      var n := QuotedLength(rest).value;
      assert rest[n..] == text[cursor + n..];
    }
  }

  method RustItemEnd(text: string, start: nat) returns (end: nat)
    requires start <= |text|
    ensures end == start + ItemLength(text[start..], Nesting(0, 0))
  {
    hide QuotedLength, BraceLength, ItemLength;
    var cursor, parens, brackets := start, 0, 0;
    ghost var goal := start + ItemLength(text[start..], Nesting(0, 0));
    while cursor < |text|
      invariant start <= cursor <= |text| && parens >= 0 && brackets >= 0
      invariant goal == cursor + ItemLength(text[cursor..], Nesting(parens, brackets))
    {
      var quotedEnd := SkipQuotedToken(text, cursor);
      ItemStep(text, cursor, Nesting(parens, brackets));
      if quotedEnd.Some? {
        cursor := quotedEnd.value;
        continue;
      }
      var character := text[cursor];
      if character == '(' {
        parens := parens + 1;
      } else if character == ')' {
        parens := if parens == 0 then 0 else parens - 1;
      } else if character == '[' {
        brackets := brackets + 1;
      } else if character == ']' {
        brackets := if brackets == 0 then 0 else brackets - 1;
      } else if character == ';' && parens == 0 && brackets == 0 {
        return cursor + 1;
      } else if character == '{' && parens == 0 && brackets == 0 {
        end := BraceBlockEnd(text, cursor + 1);
        return;
      }
      cursor := cursor + 1;
    }
    return |text|;
  }

  lemma BraceStepAt(text: string, cursor: nat, depth: nat)
    requires cursor < |text| && depth > 0
    ensures BraceLength(text[cursor..], depth) ==
            match QuotedLength(text[cursor..])
            case Some(n) => n + BraceLength(text[cursor + n..], depth)
            case None => 1 + BraceLength(text[cursor + 1..], BraceStep(depth, text[cursor]))
  {
    hide QuotedLength;
    var rest := text[cursor..];
    assert rest[1..] == text[cursor + 1..];
    if QuotedLength(rest).Some? {
      var n := QuotedLength(rest).value;
      assert rest[n..] == text[cursor + n..];
    }
  }

  /** End of the brace block whose opening brace ends at `start`. */
  method BraceBlockEnd(text: string, start: nat) returns (cursor: nat)
    requires start <= |text|
    ensures cursor == start + BraceLength(text[start..], 1)
  {
    hide QuotedLength, BraceLength;
    var depth := 1;
    cursor := start;
    while cursor < |text| && depth > 0
      invariant start <= cursor <= |text|
      invariant cursor + BraceLength(text[cursor..], depth) == start + BraceLength(text[start..], 1)
    {
      BraceStepAt(text, cursor, depth);
      var quotedEnd := SkipQuotedToken(text, cursor);
      if quotedEnd.Some? {
        cursor := quotedEnd.value;
        continue;
      }
      if text[cursor] == '{' {
        depth := depth + 1;
      } else if text[cursor] == '}' {
        depth := depth - 1;
      }
      cursor := cursor + 1;
    }
    assert BraceLength(text[cursor..], depth) == 0 by { BlockDone(text[cursor..], depth); }
  }

  /** A match of the cfg(test) attribute pattern, as the regular-expression engine reports it. */
  datatype Match = Match(start: nat, end: nat)

  ghost predicate InBounds(matches: seq<Match>, text: string) {
    forall m <- matches :: m.start < m.end <= |text|
  }

  /** The position belongs to an attribute or to the item it annotates. */
  ghost predicate InTestItem(text: string, matches: seq<Match>, i: nat)
    requires InBounds(matches, text)
  {
    exists m <- matches :: m.start <= i < ItemSpan(text, m).1
  }

  method StripCfgTestItems(text: string, matches: seq<Match>) returns (r: string)
    requires InBounds(matches, text)
    ensures |r| == |text|
    ensures forall i :: 0 <= i < |text| ==>
              r[i] == if InTestItem(text, matches, i) && text[i] != '\n' then ' ' else text[i]
  {
    hide ItemLength;
    var characters := new char[|text|](i requires 0 <= i < |text| => text[i]);
    var spans: seq<(nat, nat)> := [];
    for k := 0 to |matches|
      invariant |spans| == k
      invariant forall j :: 0 <= j < k ==> spans[j] == ItemSpan(text, matches[j])
      invariant forall i :: 0 <= i < |text| ==> characters[i] == text[i]
    {
      var itemEnd := RustItemEnd(text, matches[k].end);
      spans := spans + [(matches[k].start, itemEnd)];
    }
    BlankSpans(characters, spans);
    r := characters[..];
    CoveredIsTestItem(text, matches, spans);
  }

  function ItemSpan(text: string, m: Match): (span: (nat, nat))
    requires m.end <= |text|
  {
    (m.start, m.end + ItemLength(text[m.end..], Nesting(0, 0)))
  }

  /** Blanks the spans, last one first. */
  method BlankSpans(characters: array<char>, spans: seq<(nat, nat)>)
    modifies characters
    ensures forall i :: 0 <= i < characters.Length ==>
              characters[i] == if Covered(spans, i) && old(characters[i]) != '\n' then ' ' else old(characters[i])
  {
    for k := |spans| downto 0
      invariant forall i :: 0 <= i < characters.Length ==>
                  characters[i] ==
                  if Covered(spans[k..], i) && old(characters[i]) != '\n' then ' ' else old(characters[i])
    {
      BlankNonNewlines(characters, spans[k].0, spans[k].1);
      CoveredStep(spans, k);
    }
    assert spans[0..] == spans;
  }

  lemma CoveredStep(spans: seq<(nat, nat)>, k: nat)
    requires k < |spans|
    ensures forall i {:trigger Covered(spans[k..], i)} ::
              Covered(spans[k..], i) <==> spans[k].0 <= i < spans[k].1 || Covered(spans[k + 1..], i)
  {
    var all, later := spans[k..], spans[k + 1..];
    forall i ensures Covered(all, i) <==> spans[k].0 <= i < spans[k].1 || Covered(later, i) {
      if Covered(later, i) {
        var j :| 0 <= j < |later| && later[j].0 <= i < later[j].1;
        assert all[j + 1] == later[j];
      }
      if Covered(all, i) && !(spans[k].0 <= i < spans[k].1) {
        var j :| 0 <= j < |all| && all[j].0 <= i < all[j].1;
        assert later[j - 1] == all[j];
      }
      assert all[0] == spans[k];
    }
  }

  lemma CoveredIsTestItem(text: string, matches: seq<Match>, spans: seq<(nat, nat)>)
    requires InBounds(matches, text) && |spans| == |matches|
    requires forall j :: 0 <= j < |matches| ==> spans[j] == ItemSpan(text, matches[j])
    ensures forall i: nat {:trigger InTestItem(text, matches, i)} :: Covered(spans, i) == InTestItem(text, matches, i)
  {
    hide ItemLength;
    forall i: nat ensures Covered(spans, i) == InTestItem(text, matches, i) {
      if Covered(spans, i) {
        var j :| 0 <= j < |spans| && spans[j].0 <= i < spans[j].1;
        assert matches[j] in matches;
      }
      if InTestItem(text, matches, i) {
        var m :| m in matches && m.start <= i < ItemSpan(text, m).1;
        var j :| 0 <= j < |matches| && matches[j] == m;
        assert spans[j].0 <= i < spans[j].1;
      }
    }
  }

  ghost predicate Covered(spans: seq<(nat, nat)>, i: int) {
    exists j :: 0 <= j < |spans| && spans[j].0 <= i < spans[j].1
  }

  /**
   The runtime text of a Rust source: comments blanked, then test items blanked.  `matches` are
   the attribute matches in the comment-free text.
   */
  method RuntimeRustText(text: string, matches: seq<Match>) returns (r: string)
    requires InBounds(matches, Stripped(text))
    ensures |r| == |text|
    ensures forall i :: 0 <= i < |text| ==> (r[i] == '\n' <==> text[i] == '\n')
    ensures forall i, p: Span :: 0 <= i < |text| && p in Spans(text, 0) && p.start <= i < p.end ==>
              r[i] == if text[i] != '\n' && (p.kind == Comment || InTestItem(Stripped(text), matches, i))
                      then ' ' else text[i]
  {
    var uncommented := StripRustComments(text);
    r := StripCfgTestItems(uncommented, matches);
    forall i | 0 <= i < |text| ensures r[i] == '\n' <==> text[i] == '\n' {
      StrippedKeepsNewlines(text, i);
    }
    forall i, p: Span | 0 <= i < |text| && p in Spans(text, 0) && p.start <= i < p.end
      ensures r[i] == if text[i] != '\n' && (p.kind == Comment || InTestItem(Stripped(text), matches, i))
                      then ' ' else text[i]
    {
      StrippedBySpan(text, 0, p, i);
    }
  }
}
